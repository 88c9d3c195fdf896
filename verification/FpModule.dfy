/** The contract between the engine and a fingerprinting module, and the two built-in modules. */
module FpModule {
  import opened ScanTypes

  const UNLIMITED := -1

  // Module state is opaque to the engine; any finite value can be spelt as a string.
  type State = Option<string>

  datatype Input = Input(target: string, ip: string, port: int, args: seq<string>, maxPkt: int,
                         packetRcv: int, data: Bytes, state: State)

  datatype Step =
    | Continue(numPackets: int, payload: Bytes, state: State)
    | Restart(newTarget: string, newPort: int, state: State)
    | Finish(result: ProbeResult)

  // One call of Next: it returns a step or it panics.
  datatype Reply = Returns(step: Step) | Panics(what: string)

  function Fails(outcome: Outcome, text: string): Step {
    Finish(ProbeResult(outcome, Text(text)))
  }

  function Request(host: string): Bytes {
    "GET / HTTP/1.1\r\nHost: " + host + "\r\nConnection: close\r\n\r\n"
  }

  const CRLF: Bytes := ['\r', '\n']

  // Request line, Host header, a request to close the connection, and an empty line.
  predicate IsRequestFor(host: string, request: Bytes) {
    request == "GET / HTTP/1.1" + CRLF + "Host: " + host + CRLF + "Connection: close" + CRLF + CRLF
  }

  lemma RequestIsFor(host: string)
    ensures IsRequestFor(host, Request(host))
  {
    assert "GET / HTTP/1.1\r\nHost: " == "GET / HTTP/1.1" + CRLF + "Host: ";
    assert "\r\nConnection: close\r\n\r\n" == CRLF + "Connection: close" + CRLF + CRLF;
  }

  const BLANK_LINE: Bytes := "\r\n\r\n"

  predicate OccursAt(s: Bytes, sep: Bytes, i: nat) {
    i + |sep| <= |s| && s[i..i + |sep|] == sep
  }

  // bytes.Index: the least position from which sep occurs, from position i on.
  function IndexFrom(s: Bytes, sep: Bytes, i: nat): (r: Option<nat>)
    ensures r.Some? ==> i <= r.value && OccursAt(s, sep, r.value)
    ensures forall k :: i <= k && (r.Some? ==> k < r.value) ==> !OccursAt(s, sep, k)
    decreases |s| - i
  {
    if i + |sep| > |s| then None
    else if OccursAt(s, sep, i) then Some(i)
    else IndexFrom(s, sep, i + 1)
  }

  // The end of one line and, right after it, an empty line.
  predicate BlankLineAt(s: Bytes, k: nat) {
    k + 4 <= |s| && s[k] == '\r' && s[k + 1] == '\n' && s[k + 2] == '\r' && s[k + 3] == '\n'
  }

  lemma BlankLineOccurs(s: Bytes)
    ensures forall k :: OccursAt(s, BLANK_LINE, k) <==> BlankLineAt(s, k)
  {
    forall k: nat | OccursAt(s, BLANK_LINE, k)
      ensures BlankLineAt(s, k)
    {
      var at := s[k..k + 4];
      assert at[0] == '\r' && at[1] == '\n' && at[2] == '\r' && at[3] == '\n';
    }
    forall k: nat | BlankLineAt(s, k)
      ensures OccursAt(s, BLANK_LINE, k)
    {
      assert s[k..k + 4] == [s[k], s[k + 1], s[k + 2], s[k + 3]];
    }
  }

  // The status line and headers of a response: what precedes the first blank line.
  function Head(response: Bytes): (h: Bytes)
    ensures h <= response
    ensures h == response || BlankLineAt(response, |h|)
    ensures forall k :: BlankLineAt(response, k) ==> |h| <= k
  {
    BlankLineOccurs(response);
    var at := IndexFrom(response, BLANK_LINE, 0);
    if at.Some? then response[..at.value] else response
  }

  function HttpNext(input: Input): Reply {
    Returns(
      if input.state.None? then Continue(UNLIMITED, Request(input.target), Some("requested"))
      else if input.packetRcv < 1 then Fails(ErrUp, "no response received")
      else Fails(OK, Head(input.data)))
  }

  function TcpBannerNext(input: Input): Reply {
    Returns(
      if input.state.None? then Continue(1, "", Some("listening"))
      else if input.packetRcv < 1 then Fails(ErrUp, "no banner received")
      else Fails(OK, input.data))
  }
}
