/** One Continue round: write the payload, wait for the first chunk, keep reading. */
module Exchange {
  import opened ScanTypes
  import opened FpModule
  import opened Dial
  import opened Conn

  // One write and, if it went through, one read.
  function Try(io: Io, payload: Bytes): (ReadResult, Io) {
    var (ok, io1) := AfterWrite(io, payload);
    if ok then AfterRead(io1) else (ReadFailed, io1)
  }

  // The first chunk of a round ("" if there is none), the connection after it, and the budget left.
  function FirstChunk(io: Io, payload: Bytes, budget: int): (r: (Bytes, Io, int))
    decreases Max(budget, 0)
  {
    var (what, io1) := Try(io, payload);
    if what.Chunk? then (what.bytes, io1, budget)
    else if budget > 0 && payload != "" then FirstChunk(io1, payload, budget - 1)
    else ("", io1, budget)
  }

  method SendAndWaitFirst(conn: LiveConn, payload: Bytes, retryBudget: int) returns (chunk: Bytes, budget: int)
    requires !conn.closed
    modifies conn
    ensures (chunk, conn.Value(), budget) == FirstChunk(old(conn.Value()), payload, retryBudget)
    ensures !conn.closed
  {
    budget := retryBudget;
    while true
      invariant !conn.closed
      invariant FirstChunk(conn.Value(), payload, budget) == FirstChunk(old(conn.Value()), payload, retryBudget)
      decreases Max(budget, 0)
    {
      var ok := conn.WriteAll(payload);
      if ok {
        var what := conn.ReadOne();
        if what.Chunk? {
          return what.bytes, budget;
        }
      }
      if budget > 0 && |payload| > 0 {
        budget := budget - 1;
      } else {
        return "", budget;
      }
    }
  }

  function Wanted(numPackets: int, packetRcv: int): bool {
    numPackets == UNLIMITED || packetRcv < numPackets
  }

  function Accumulate(io: Io, numPackets: int, data: Bytes, packetRcv: nat): (Bytes, nat, Io)
    decreases |io.arrivals|
  {
    if !Wanted(numPackets, packetRcv) then (data, packetRcv, io)
    else
      var (what, io1) := AfterRead(io);
      if what.ReadFailed? then (data, packetRcv, io1)
      else Accumulate(io1, numPackets, data + what.bytes, packetRcv + 1)
  }

  datatype Round = Round(data: Bytes, packetRcv: nat, hardStop: Option<ProbeResult>, io: Io, budget: int)

  function TooMany(data: Bytes): ProbeResult {
    ProbeResult(ErrUp, List([Text("toomanypacketreceived"), Text(data)]))
  }

  function RoundTrip(io: Io, payload: Bytes, numPackets: int, budget: int): Round {
    var (first, io1, budget1) := FirstChunk(io, payload, budget);
    if first == "" then Round("", 0, None, io1, budget1)
    else
      var (data, packetRcv, io2) := Accumulate(io1, numPackets, first, 1);
      if numPackets == 0 then Round("", 0, Some(TooMany(data)), io2.(log := io2.log + [HardStopped(data)]), budget1)
      else Round(data, packetRcv, None, io2, budget1)
  }

  method SendRecv(conn: LiveConn, payload: Bytes, numPackets: int, retryBudget: int)
    returns (data: Bytes, packetRcv: nat, hardStop: Option<ProbeResult>, budget: int)
    requires !conn.closed
    modifies conn
    ensures Round(data, packetRcv, hardStop, conn.Value(), budget)
         == RoundTrip(old(conn.Value()), payload, numPackets, retryBudget)
    ensures !conn.closed
  {
    data, packetRcv, hardStop := "", 0, None;
    var first;
    first, budget := SendAndWaitFirst(conn, payload, retryBudget);
    if |first| == 0 {
      return;
    }
    data := data + first;
    assert data == first;
    packetRcv := 1;
    label start:
    while numPackets == UNLIMITED || packetRcv < numPackets
      invariant !conn.closed && packetRcv > 0
      invariant Accumulate(conn.Value(), numPackets, data, packetRcv)
             == Accumulate(old@start(conn.Value()), numPackets, first, 1)
      decreases |conn.arrivals|
    {
      var any := conn.arrivals != [];
      var what := conn.ReadOne();
      if what.ReadFailed? {
        break;
      }
      assert any;
      data := data + what.bytes;
      packetRcv := packetRcv + 1;
    }
    if numPackets == 0 && packetRcv > 0 {
      conn.Note(HardStopped(data));
      hardStop := Some(TooMany(data));
      data, packetRcv := "", 0;
    }
  }
}
