/** The built-in modules run by the engine: what they return for a given byte stream. */
module Banner {
  import opened ScanTypes
  import opened FpModule
  import opened Dial
  import opened Conn
  import opened Exchange
  import opened Probe
  import Turns
  import Watch

  // A read that yields no byte and fails, or whose deadline cannot be set; or there are no more reads.
  predicate NothingToRead(arrivals: seq<RawRead>) {
    arrivals == [] || arrivals[0] == NoDeadline || arrivals[0] == Arrived("", true)
  }

  // arrivals is some cut of stream into non-empty chunks, the last of which may come with an
  // error, ended by a failed read or the read deadline.
  predicate CutOf(arrivals: seq<RawRead>, stream: Bytes)
    decreases |arrivals|
  {
    if NothingToRead(arrivals) then stream == ""
    else
      var b := arrivals[0].bytes;
      b != "" && b <= stream && CutOf(arrivals[1..], stream[|b|..])
  }

  // One of the writes the budget allows succeeds.
  ghost predicate GetsThrough(sends: seq<bool>, budget: int) {
    exists i :: 0 <= i < |sends| && i <= Max(0, budget) && sends[i]
  }

  lemma GetsThroughLater(sends: seq<bool>, budget: int)
    requires sends != [] && !sends[0] && budget > 0
    ensures GetsThrough(sends, budget) <==> GetsThrough(sends[1..], budget - 1)
  {
    if i :| 0 <= i < |sends| && i <= budget && sends[i] {
      assert sends[1..][i - 1];
    }
    if i :| 0 <= i < |sends[1..]| && i <= budget - 1 && sends[1..][i] {
      assert sends[i + 1];
    }
  }

  lemma {:induction false} FirstChunkOfCut(io: Io, payload: Bytes, budget: int, stream: Bytes)
    requires payload != "" && stream != "" && CutOf(io.arrivals, stream)
    ensures var (chunk, io', _) := FirstChunk(io, payload, budget);
            if GetsThrough(io.sends, budget) then chunk == io.arrivals[0].bytes && io'.arrivals == io.arrivals[1..]
            else chunk == ""
    decreases Max(budget, 0)
  {
    if (io.sends == [] || !io.sends[0]) && budget > 0 {
      if io.sends != [] {
        GetsThroughLater(io.sends, budget);
      }
      FirstChunkOfCut(Try(io, payload).1, payload, budget - 1, stream);
    }
  }

  lemma {:induction false} AccumulateCut(io: Io, data: Bytes, packetRcv: nat, stream: Bytes)
    requires CutOf(io.arrivals, stream)
    ensures Accumulate(io, UNLIMITED, data, packetRcv).0 == data + stream
    ensures Accumulate(io, UNLIMITED, data, packetRcv).1 >= packetRcv
    decreases |io.arrivals|
  {
    var (what, io1) := AfterRead(io);
    if what.Chunk? {
      AccumulateCut(io1, data + what.bytes, packetRcv + 1, stream[|what.bytes|..]);
      assert data + what.bytes + stream[|what.bytes|..] == data + stream;
    }
  }

  // The first connect of the probe succeeds with connection c.
  ghost predicate Connects(e: Engine, t: Target, c: Connection) { ConnectsAt(e, 0, t.host, t.port, c) }

  // No read on the connection ever yields a byte.
  predicate Silent(arrivals: seq<RawRead>) {
    forall i :: 0 <= i < |arrivals| ==> arrivals[i] == NoDeadline || arrivals[i] == Arrived("", true)
  }

  // The server sends stream, in whatever chunks, and nothing after it; an empty stream stays empty
  // however often a resent request has it read again.
  predicate Sends(arrivals: seq<RawRead>, stream: Bytes) {
    CutOf(arrivals, stream) && (stream == "" ==> Silent(arrivals))
  }

  lemma {:induction false} FirstChunkOfSilence(io: Io, payload: Bytes, budget: int)
    requires Silent(io.arrivals)
    ensures FirstChunk(io, payload, budget).0 == ""
    decreases Max(budget, 0)
  {
    if budget > 0 && payload != "" {
      FirstChunkOfSilence(Try(io, payload).1, payload, budget - 1);
    }
  }

  // On any connection whatever, httpBanner is done in its second call.
  lemma HttpEndsInTwoCalls(e: Engine, t: Target, c: Connection)
    requires (forall input :: e.next(input) == HttpNext(input)) && Connects(e, t, c)
    ensures Run(e, t, 2).Calling? && Run(e, t, 3).Done?
    ensures var io := Io(c.arrivals, c.sends, LogOfFirstCall(e, t));
            var r := RoundTrip(io, Request(t.host), UNLIMITED, e.retry);
            && LogOf(Run(e, t, 2)) == r.io.log
            && Run(e, t, 3).rec.result == if r.packetRcv < 1 then ProbeResult(ErrUp, Text("no response received"))
                                          else ProbeResult(OK, Text(Head(r.data)))
  {
    var s := Run(e, t, 1);
    assert s == Advance(e, t, Run(e, t, 0)) && s.Calling?;
    assert SafeNext(e, InputFor(e, s)) == Continue(UNLIMITED, Request(t.host), Some("requested"));
    assert Run(e, t, 2) == Advance(e, t, s);
  }

  // What it writes first, and again for every unit of budget spent, is this request.
  lemma HttpSendsTheRequest(e: Engine, t: Target, c: Connection)
    requires (forall input :: e.next(input) == HttpNext(input)) && Connects(e, t, c)
    ensures var log := LogOfFirstCall(e, t);
            && |log| < |LogOf(Run(e, t, 2))| && log <= LogOf(Run(e, t, 2))
            && var sent := LogOf(Run(e, t, 2))[|log|];
               sent.Wrote? && IsRequestFor(t.host, sent.payload)
  {
    HttpEndsInTwoCalls(e, t, c);
    RequestIsFor(t.host);
    Turns.RoundIsQuiet(Io(c.arrivals, c.sends, LogOfFirstCall(e, t)), Request(t.host), UNLIMITED, e.retry);
  }

  // The history once the module has been called for the first time.
  function LogOfFirstCall(e: Engine, t: Target): seq<Event> {
    var s := Run(e, t, 1);
    if s.Calling? then s.io.log + [Called(InputFor(e, s), SafeNext(e, InputFor(e, s)))] else []
  }

  // httpBanner finishes in its second call, and returns the status line and headers of the
  // whole stream, however it was cut, exactly when its request got through and something came.
  lemma HttpReturnsTheHead(e: Engine, t: Target, c: Connection, stream: Bytes)
    requires (forall input :: e.next(input) == HttpNext(input)) && Connects(e, t, c) && Sends(c.arrivals, stream)
    ensures Run(e, t, 2).Calling? && Run(e, t, 3).Done?
    ensures var answered := stream != "" && GetsThrough(c.sends, e.retry);
            && Run(e, t, 3).rec.host == t.host && Run(e, t, 3).rec.port == t.port
            && Run(e, t, 3).rec.moduleName == e.moduleName
            && Run(e, t, 3).rec.result == if answered then ProbeResult(OK, Text(Head(stream)))
                                          else ProbeResult(ErrUp, Text("no response received"))
  {
    HttpEndsInTwoCalls(e, t, c);
    Watch.RecordNamesTheTarget(e, t, 3);
    var io := Io(c.arrivals, c.sends, LogOfFirstCall(e, t));
    if stream == "" {
      FirstChunkOfSilence(io, Request(t.host), e.retry);
    } else {
      FirstChunkOfCut(io, Request(t.host), e.retry, stream);
      var (first, io1, _) := FirstChunk(io, Request(t.host), e.retry);
      if first != "" {
        AccumulateCut(io1, first, 1, stream[|first|..]);
        assert first + stream[|first|..] == stream;
      }
    }
  }

  // Two runs that differ only in how the stream was cut end in the same record.
  lemma SegmentationIndependent(e1: Engine, e2: Engine, t: Target, c1: Connection, c2: Connection, stream: Bytes)
    requires forall input :: e1.next(input) == e2.next(input) == HttpNext(input)
    requires e1.moduleName == e2.moduleName && e1.retry == e2.retry && Connects(e1, t, c1) && Connects(e2, t, c2)
    requires c1.sends == c2.sends && Sends(c1.arrivals, stream) && Sends(c2.arrivals, stream)
    ensures Run(e1, t, 3).Done? && Run(e2, t, 3).Done? && Run(e1, t, 3).rec == Run(e2, t, 3).rec
  {
    HttpReturnsTheHead(e1, t, c1, stream);
    HttpReturnsTheHead(e2, t, c2, stream);
  }

  // tcpBanner, in contrast, returns the first chunk alone: the same stream cut in two places
  // gives two banners.
  lemma TcpBannerReturnsTheFirstChunk(e: Engine, t: Target, c: Connection)
    requires (forall input :: e.next(input) == TcpBannerNext(input)) && Connects(e, t, c)
    ensures Run(e, t, 2).Calling? && Run(e, t, 3).Done?
    ensures Run(e, t, 3).rec.result
         == if c.sends != [] && c.sends[0] && c.arrivals != [] && c.arrivals[0].Arrived? && c.arrivals[0].bytes != ""
            then ProbeResult(OK, Text(c.arrivals[0].bytes))
            else ProbeResult(ErrUp, Text("no banner received"))
  {
    var s := Run(e, t, 1);
    assert s == Advance(e, t, Run(e, t, 0)) && s.Calling?;
    var step := SafeNext(e, InputFor(e, s));
    assert step == Continue(1, "", Some("listening"));
    assert Run(e, t, 2) == Advance(e, t, s);
  }
}
