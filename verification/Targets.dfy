/** The worker's adapter from a GetTargets stream to a channel of targets. */
module Targets {
  import opened ScanTypes
  import opened Convert

  function Decoded(ms: seq<WireTarget>): (ts: seq<Target>)
    ensures |ts| == |ms|
    ensures forall i :: 0 <= i < |ms| ==> ts[i] == FromProtoTarget(ms[i])
  {
    seq(|ms|, i requires 0 <= i < |ms| => FromProtoTarget(ms[i]))
  }

  function Encoded(ts: seq<Target>): (ms: seq<WireTarget>)
    ensures |ms| == |ts|
    ensures forall i :: 0 <= i < |ts| ==> ms[i] == ToProtoTarget(ts[i])
  {
    seq(|ts|, i requires 0 <= i < |ts| => ToProtoTarget(ts[i]))
  }

  // What Recv yields once the messages are used up.
  datatype Ending = EndOfStream | Broken(err: string)

  // Forwards the stream's messages in order. cancelled(i) says whether the select around
  // the i-th hand-over takes its ctx.Done arm; the select around the error is number |messages|.
  method StreamTargets(messages: seq<WireTarget>, ending: Ending, cancelled: nat -> bool)
    returns (out: seq<Target>, errs: seq<string>)
    ensures out <= Decoded(messages)
    ensures out == Decoded(messages) <==> forall i :: 0 <= i < |messages| ==> !cancelled(i)
    ensures |out| < |messages| ==> cancelled(|out|) && forall i :: 0 <= i < |out| ==> !cancelled(i)
    ensures errs == if out == Decoded(messages) && ending.Broken? && !cancelled(|messages|) then [ending.err] else []
  {
    out, errs := [], [];
    var i := 0;
    while true
      invariant i == |out| <= |messages|
      invariant out <= Decoded(messages)
      invariant forall k :: 0 <= k < i ==> !cancelled(k)
      invariant errs == []
      decreases |messages| - i
    {
      if i == |messages| {
        if ending.Broken? {
          if !cancelled(i) {
            errs := errs + [ending.err];
          }
        }
        return;
      }
      if cancelled(i) {
        return;
      }
      out := out + [FromProtoTarget(messages[i])];
      i := i + 1;
    }
  }
}
