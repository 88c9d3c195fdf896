/** The wire forms of targets and results. Ports travel as int32, values as JSON text. */
module Convert {
  import opened ScanTypes

  const TWO_TO_THE_31 := 0x8000_0000
  const TWO_TO_THE_32 := 0x1_0000_0000

  predicate InInt32(n: int) {
    -TWO_TO_THE_31 <= n < TWO_TO_THE_31
  }

  // Go's int32(n): keep the low 32 bits, read them as two's complement.
  function WrapInt32(n: int): (r: int)
    ensures InInt32(r) && (r == n <==> InInt32(n)) && (r - n) % TWO_TO_THE_32 == 0
  {
    (n + TWO_TO_THE_31) % TWO_TO_THE_32 - TWO_TO_THE_31
  }

  datatype WireTarget = WireTarget(host: string, port: int, isDomain: bool, arg: seq<string>)

  datatype WireOutcome = Unspecified | WireOk | WireErrorUp | WireErrorUnknown | WireOther(code: int)

  datatype WireResult = WireResult(moduleName: string, host: string, port: int, outcome: WireOutcome, valueJson: string)

  // JSON as the standard library does it: encode may refuse a value, decode may refuse a
  // text, and what comes back is the value up to the shapes JSON cannot tell apart.
  datatype Codec = Codec(encode: Value -> Option<string>, decode: string -> Option<Value>, canon: Value -> Value)
  {
    ghost predicate Lawful() {
      forall v :: encode(v).Some? ==> encode(v).value != "" && decode(encode(v).value) == Some(canon(v))
    }
  }

  function ToProtoTarget(t: Target): WireTarget {
    WireTarget(t.host, WrapInt32(t.port), t.isDomain, t.arg)
  }

  function FromProtoTarget(w: WireTarget): Target {
    Target(w.host, w.port, w.isDomain, w.arg)
  }

  datatype ConvertError = UnknownOutcome | BadValue

  function OutcomeToProto(o: Outcome): Option<WireOutcome> {
    match o
    case OK => Some(WireOk)
    case ErrUp => Some(WireErrorUp)
    case ErrUnknown => Some(WireErrorUnknown)
    case OtherOutcome(_) => None
  }

  function OutcomeFromProto(w: WireOutcome): Option<Outcome> {
    match w
    case WireOk => Some(OK)
    case WireErrorUp => Some(ErrUp)
    case WireErrorUnknown => Some(ErrUnknown)
    case _ => None
  }

  function ToProtoResult(c: Codec, r: Record): Result<WireResult, ConvertError> {
    var outcome := OutcomeToProto(r.result.outcome);
    if outcome.None? then Err(UnknownOutcome)
    else if r.result.value == Nil then
      Ok(WireResult(r.moduleName, r.host, WrapInt32(r.port), outcome.value, ""))
    else
      var json := c.encode(r.result.value);
      if json.None? then Err(BadValue)
      else Ok(WireResult(r.moduleName, r.host, WrapInt32(r.port), outcome.value, json.value))
  }

  function FromProtoResult(c: Codec, w: WireResult): Result<Record, ConvertError> {
    var outcome := OutcomeFromProto(w.outcome);
    if outcome.None? then Err(UnknownOutcome)
    else if w.valueJson == "" then
      Ok(Record(w.moduleName, w.host, w.port, ProbeResult(outcome.value, Nil)))
    else
      var value := c.decode(w.valueJson);
      if value.None? then Err(BadValue)
      else Ok(Record(w.moduleName, w.host, w.port, ProbeResult(outcome.value, value.value)))
  }

  // A record can be encoded exactly if it has one of the three outcomes of a probe and its value
  // is nil or one JSON can spell; and this is what it becomes.
  lemma EncodesIff(c: Codec, r: Record)
    ensures ToProtoResult(c, r).Ok? <==>
              && r.result.outcome in {OK, ErrUp, ErrUnknown}
              && (r.result.value == Nil || c.encode(r.result.value).Some?)
    ensures ToProtoResult(c, r).Ok? ==>
              var w := ToProtoResult(c, r).value;
              && w.moduleName == r.moduleName && w.host == r.host && w.port == WrapInt32(r.port)
              && (r.result.outcome == OK <==> w.outcome == WireOk)
              && (r.result.outcome == ErrUp <==> w.outcome == WireErrorUp)
              && (r.result.outcome == ErrUnknown <==> w.outcome == WireErrorUnknown)
              && (r.result.value == Nil ==> w.valueJson == "")
              && (r.result.value != Nil ==> c.encode(r.result.value) == Some(w.valueJson))
    ensures ToProtoResult(c, r).Err? ==>
              ToProtoResult(c, r).error == if r.result.outcome.OtherOutcome? then UnknownOutcome else BadValue
  {
  }

  // A result can be decoded exactly if its outcome is one of the three, neither unspecified nor
  // of an unknown code, and its value is absent or is JSON; and this is what it becomes.
  lemma DecodesIff(c: Codec, w: WireResult)
    ensures FromProtoResult(c, w).Ok? <==>
              && w.outcome in {WireOk, WireErrorUp, WireErrorUnknown}
              && (w.valueJson == "" || c.decode(w.valueJson).Some?)
    ensures FromProtoResult(c, w).Ok? ==>
              var r := FromProtoResult(c, w).value;
              && r.moduleName == w.moduleName && r.host == w.host && r.port == w.port
              && (w.outcome == WireOk <==> r.result.outcome == OK)
              && (w.outcome == WireErrorUp <==> r.result.outcome == ErrUp)
              && (w.outcome == WireErrorUnknown <==> r.result.outcome == ErrUnknown)
              && (w.valueJson == "" ==> r.result.value == Nil)
              && (w.valueJson != "" ==> c.decode(w.valueJson) == Some(r.result.value))
    ensures FromProtoResult(c, w).Err? ==>
              FromProtoResult(c, w).error
                == if w.outcome == Unspecified || w.outcome.WireOther? then UnknownOutcome else BadValue
  {
  }

  // A target survives the wire exactly when its port fits in 32 bits.
  lemma TargetRoundTrip(t: Target)
    ensures FromProtoTarget(ToProtoTarget(t)) == t <==> InInt32(t.port)
    ensures var w := ToProtoTarget(t);
            w.host == t.host && w.isDomain == t.isDomain && w.arg == t.arg && (w.port - t.port) % TWO_TO_THE_32 == 0
  {
    var back := FromProtoTarget(ToProtoTarget(t));
    assert back == t.(port := WrapInt32(t.port));
  }

  // Every record the sender manages to encode is decodable, and comes back with its value
  // canonicalised and its port reduced to 32 bits.
  lemma ResultRoundTrip(c: Codec, r: Record)
    requires c.Lawful() && ToProtoResult(c, r).Ok?
    ensures FromProtoResult(c, ToProtoResult(c, r).value)
         == Ok(Record(r.moduleName, r.host, WrapInt32(r.port),
                      ProbeResult(r.result.outcome, if r.result.value == Nil then Nil else c.canon(r.result.value))))
  {
    assert r.result.value != Nil ==> c.encode(r.result.value).Some?;
  }
}
