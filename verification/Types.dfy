/** The values that flow through a scan: targets, results and records. */
module ScanTypes {

  datatype Option<+T> = None | Some(value: T)

  datatype Result<+T, +E> = Ok(value: T) | Err(error: E)

  // A Go string and a []byte are both sequences of bytes; a byte is written as a char.
  type Bytes = string

  datatype Target = Target(host: string, port: int, isDomain: bool, arg: seq<string>)

  datatype Outcome = OK | ErrUp | ErrUnknown | OtherOutcome(tag: nat)

  // The dynamic shapes a result value takes. Nil is Go's untyped nil.
  datatype Value = Nil | Bool(b: bool) | Text(s: Bytes) | Texts(ss: seq<Bytes>) | List(vs: seq<Value>)

  datatype ProbeResult = ProbeResult(outcome: Outcome, value: Value)

  datatype Record = Record(moduleName: string, host: string, port: int, result: ProbeResult)

  function Max(a: int, b: int): int { if a < b then b else a }

  function Min(a: int, b: int): int { if a < b then a else b }
}
