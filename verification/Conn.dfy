/** One live connection: single reads and whole writes, and the history of an engine run. */
module Conn {
  import opened ScanTypes
  import opened FpModule
  import opened Dial

  // Chunk("") is a read that produced nothing without failing.
  datatype ReadResult = Chunk(bytes: Bytes) | ReadFailed

  datatype Event =
    | Opened
    | Shut
    | Called(input: Input, step: Step)
    | Wrote(payload: Bytes, ok: bool)
    | Received(what: ReadResult)
    | HardStopped(data: Bytes)

  // The rest of a connection's script, and everything that has happened so far.
  datatype Io = Io(arrivals: seq<RawRead>, sends: seq<bool>, log: seq<Event>)

  // Bytes win over an error that came with them; a script that has run out is a read deadline.
  function ReadOnce(arrivals: seq<RawRead>): ReadResult {
    if arrivals == [] || arrivals[0].NoDeadline? then ReadFailed
    else if arrivals[0].bytes != "" then Chunk(arrivals[0].bytes)
    else if arrivals[0].failed then ReadFailed
    else Chunk("")
  }

  function Rest<T>(s: seq<T>): seq<T> { if s == [] then s else s[1..] }

  function AfterRead(io: Io): (ReadResult, Io) {
    var what := ReadOnce(io.arrivals);
    (what, Io(Rest(io.arrivals), io.sends, io.log + [Received(what)]))
  }

  function AfterWrite(io: Io, payload: Bytes): (bool, Io) {
    var ok := io.sends != [] && io.sends[0];
    (ok, Io(io.arrivals, Rest(io.sends), io.log + [Wrote(payload, ok)]))
  }

  class LiveConn {
    var arrivals: seq<RawRead>
    var sends: seq<bool>
    var closed: bool
    ghost var log: seq<Event>

    ghost function Value(): Io
      reads this
    {
      Io(arrivals, sends, log)
    }

    constructor (c: Connection, ghost sofar: seq<Event>)
      ensures Value() == Io(c.arrivals, c.sends, sofar) && !closed
    {
      arrivals, sends, closed, log := c.arrivals, c.sends, false, sofar;
    }

    method ReadOne() returns (what: ReadResult)
      requires !closed
      modifies this
      ensures (what, Value()) == AfterRead(old(Value())) && !closed
      ensures what.ReadFailed? <==>
                old(arrivals) == [] || old(arrivals[0]).NoDeadline? || old(arrivals[0]) == Arrived("", true)
      ensures what.Chunk? ==> old(arrivals[0]).Arrived? && what.bytes == old(arrivals[0]).bytes
    {
      if arrivals == [] {
        what := ReadFailed;
      } else {
        match arrivals[0] {
          case NoDeadline => what := ReadFailed;
          case Arrived(bytes, failed) =>
            if |bytes| > 0 {
              what := Chunk(bytes);
            } else {
              what := if failed then ReadFailed else Chunk("");
            }
        }
        arrivals := arrivals[1..];
      }
      log := log + [Received(what)];
    }

    method WriteAll(payload: Bytes) returns (ok: bool)
      requires !closed
      modifies this
      ensures (ok, Value()) == AfterWrite(old(Value()), payload) && !closed
    {
      ok := false;
      if sends != [] {
        ok, sends := sends[0], sends[1..];
      }
      log := log + [Wrote(payload, ok)];
    }

    ghost method Note(e: Event)
      modifies `log
      ensures log == old(log) + [e]
    {
      log := log + [e];
    }

    method Close()
      requires !closed
      modifies this
      ensures closed
      ensures Value() == old(Value()).(log := old(log) + [Shut])
    {
      closed := true;
      log := log + [Shut];
    }
  }
}
