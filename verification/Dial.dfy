/** The CONNECT step: privileged-port retries inside, backoff retries outside. */
module Dial {
  import opened ScanTypes

  const EACCESS_MAX := 2
  const TWO_TO_THE_63 := 0x8000_0000_0000_0000
  const TWO_TO_THE_64 := 0x1_0000_0000_0000_0000

  datatype Errno = ECONNREFUSED | ECONNRESET | EACCES | OtherErrno

  datatype DialError = DialError(errno: Errno, text: string)

  // What one Read on the socket does: its deadline cannot be set, or it returns bytes, possibly with an error.
  datatype RawRead = NoDeadline | Arrived(bytes: Bytes, failed: bool)

  // One turn of the inner loop: no local address, a failed socket dial, or a socket.
  datatype Socket = NoLocalAddr(err: DialError) | SocketFailed(err: DialError) | SocketUp

  // One call of dial: the name lookup, the inner loop's turns, the TLS handshake, and what the
  // connection will do once it is up (what its reads find and whether its writes succeed, in order).
  datatype Attempt = Attempt(lookup: Result<string, DialError>, sockets: nat -> Socket,
                             handshake: Option<DialError>, arrivals: seq<RawRead>, sends: seq<bool>)

  // A whole connect: the attempts, which backoff waits are cut short by the context, and its error.
  datatype Script = Script(attempts: nat -> Attempt, cutShort: nat -> bool, ctxErr: DialError)

  datatype DialConfig = DialConfig(privPorts: bool, ssl: bool, connectRetries: int, connectBackoff: int)

  datatype Connection = Connection(ip: string, arrivals: seq<RawRead>, sends: seq<bool>)

  function Turns(privPorts: bool): nat {
    1 + if privPorts then EACCESS_MAX else 0
  }

  // The result of the inner loop from turn i, and the number of sockets it dials.
  function SocketFrom(privPorts: bool, sockets: nat -> Socket, i: nat): (r: (Option<DialError>, nat))
    requires i < Turns(privPorts)
    ensures r.1 <= (if privPorts then 3 else 1) - i
    ensures r.0.Some? && r.0.value.errno == EACCES && privPorts ==>
              i + r.1 == 3 || sockets(i + r.1) == NoLocalAddr(r.0.value)
    ensures r.0.None? ==> r.1 > 0 && sockets(i + r.1 - 1) == SocketUp
    ensures r.0.Some? ==>
              || sockets(i + r.1) == NoLocalAddr(r.0.value)
              || (r.1 > 0 && sockets(i + r.1 - 1) == SocketFailed(r.0.value))
    ensures forall k :: i <= k < i + r.1 - 1 ==>
                          privPorts && sockets(k).SocketFailed? && sockets(k).err.errno == EACCES
    decreases Turns(privPorts) - i
  {
    match sockets(i)
    case NoLocalAddr(e) => (Some(e), 0)
    case SocketUp => (None, 1)
    case SocketFailed(e) =>
      if !privPorts || e.errno != EACCES || i + 1 == Turns(privPorts) then (Some(e), 1)
      else
        var rest := SocketFrom(privPorts, sockets, i + 1);
        (rest.0, rest.1 + 1)
  }

  method DialWithPrivPorts(privPorts: bool, sockets: nat -> Socket) returns (err: Option<DialError>, dialed: nat)
    ensures (err, dialed) == SocketFrom(privPorts, sockets, 0)
  {
    var attempts := 1;
    if privPorts {
      attempts := attempts + EACCESS_MAX;
    }
    var lastErr := None;
    dialed := 0;
    for i := 0 to attempts
      invariant attempts == Turns(privPorts)
      invariant dialed == i
      invariant i < attempts ==>
                  var rest := SocketFrom(privPorts, sockets, i);
                  SocketFrom(privPorts, sockets, 0) == (rest.0, rest.1 + i)
      invariant i == attempts ==> SocketFrom(privPorts, sockets, 0) == (lastErr, i)
    {
      match sockets(i)
      case NoLocalAddr(e) =>
        return Some(e), dialed;
      case SocketUp =>
        return None, dialed + 1;
      case SocketFailed(e) =>
        dialed := dialed + 1;
        lastErr := Some(e);
        if !privPorts || e.errno != EACCES {
          return Some(e), dialed;
        }
    }
    err := lastErr;
  }

  // What a connect leaves behind: its result, the attempts it made, the delay it waited in
  // all, the sockets it dialed, and how many of those it opened only to close again.
  datatype Report = Report(result: Result<Connection, DialError>, attempts: nat, waited: nat, dialed: nat, aborted: nat)

  function DialOnce(c: DialConfig, a: Attempt): (r: Report)
    ensures r.dialed <= 1 + EACCESS_MAX && r.aborted <= 1 && r.attempts == 1 && r.waited == 0
  {
    if a.lookup.Err? then Report(Err(a.lookup.error), 1, 0, 0, 0)
    else
      var (err, dialed) := SocketFrom(c.privPorts, a.sockets, 0);
      if err.Some? then Report(Err(err.value), 1, 0, dialed, 0)
      else if c.ssl && a.handshake.Some? then Report(Err(a.handshake.value), 1, 0, dialed, 1)
      else Report(Ok(Connection(a.lookup.value, a.arrivals, a.sends)), 1, 0, dialed, 0)
  }

  // Go's arithmetic on durations: 64-bit two's complement.
  function WrapInt64(n: int): (r: int)
    ensures -TWO_TO_THE_63 <= r < TWO_TO_THE_63
    ensures -TWO_TO_THE_63 <= n < TWO_TO_THE_63 ==> r == n
  {
    (n + TWO_TO_THE_63) % TWO_TO_THE_64 - TWO_TO_THE_63
  }

  // What attempts that failed, and then the rest of the connect, leave behind together.
  function Plus(failed: Report, rest: Report): Report {
    Report(rest.result, failed.attempts + rest.attempts, failed.waited + rest.waited,
           failed.dialed + rest.dialed, failed.aborted + rest.aborted)
  }

  lemma PlusAssociates(a: Report, b: Report, c: Report)
    ensures Plus(a, Plus(b, c)) == Plus(Plus(a, b), c)
  {
  }

  // The connect from attempt k on, the next wait being backoff long.
  function DialFrom(c: DialConfig, s: Script, k: nat, backoff: int): (r: Report)
    ensures r.attempts >= 1
    ensures r.attempts <= 1 + Max(0, c.connectRetries - k)
    decreases c.connectRetries - k
  {
    var one := DialOnce(c, s.attempts(k));
    if one.result.Ok? || k >= c.connectRetries then one
    else if s.cutShort(k) then one.(result := Err(s.ctxErr))
    else
      Plus(one.(waited := Max(0, backoff)), DialFrom(c, s, k + 1, WrapInt64(2 * backoff)))
  }

  method DialWithRetry(c: DialConfig, s: Script) returns (r: Report)
    ensures r == DialFrom(c, s, 0, c.connectBackoff)
  {
    r := DialAttempt(c, s.attempts(0));
    var backoff := c.connectBackoff;
    var attempt := 0;
    ghost var failed := Report(r.result, 0, 0, 0, 0);
    while r.result.Err? && attempt < c.connectRetries
      invariant attempt >= 0
      invariant r == Plus(failed, DialOnce(c, s.attempts(attempt)))
      invariant DialFrom(c, s, 0, c.connectBackoff) == Plus(failed, DialFrom(c, s, attempt, backoff))
    {
      if s.cutShort(attempt) {
        r := r.(result := Err(s.ctxErr));
        return;
      }
      var waited := Max(0, backoff);
      backoff := WrapInt64(2 * backoff);
      ghost var one := DialOnce(c, s.attempts(attempt));
      attempt := attempt + 1;
      PlusAssociates(failed, one.(waited := waited), DialFrom(c, s, attempt, backoff));
      failed := Plus(failed, one.(waited := waited));
      var next := DialAttempt(c, s.attempts(attempt));
      r := Plus(r.(waited := r.waited + waited), next);
      assert r == Plus(failed, next);
    }
  }

  method DialAttempt(c: DialConfig, a: Attempt) returns (r: Report)
    ensures r == DialOnce(c, a)
  {
    if a.lookup.Err? {
      return Report(Err(a.lookup.error), 1, 0, 0, 0);
    }
    var err, dialed := DialWithPrivPorts(c.privPorts, a.sockets);
    if err.Some? {
      return Report(Err(err.value), 1, 0, dialed, 0);
    }
    if !c.ssl {
      return Report(Ok(Connection(a.lookup.value, a.arrivals, a.sends)), 1, 0, dialed, 0);
    }
    if a.handshake.Some? {
      return Report(Err(a.handshake.value), 1, 0, dialed, 1);
    }
    r := Report(Ok(Connection(a.lookup.value, a.arrivals, a.sends)), 1, 0, dialed, 0);
  }

  // At most (1 + ConnectRetries) * (1 + eaccessMax) sockets are dialed, every attempt but the
  // last failed, and a connection that comes up is the last attempt's.
  lemma {:induction false} DialIsBounded(c: DialConfig, s: Script, k: nat, backoff: int)
    ensures var r := DialFrom(c, s, k, backoff);
            && r.dialed <= 3 * r.attempts <= 3 * (1 + Max(0, c.connectRetries - k))
            && r.aborted <= r.attempts
            && (forall i :: k <= i < k + r.attempts - 1 ==> DialOnce(c, s.attempts(i)).result.Err? && !s.cutShort(i))
            && var last := k + r.attempts - 1;
               && (r.result == DialOnce(c, s.attempts(last)).result || (s.cutShort(last) && r.result == Err(s.ctxErr)))
               && (r.result.Err? ==>
                     || r.attempts == 1 + Max(0, c.connectRetries - k)
                     || (last < c.connectRetries && s.cutShort(last) && r.result == Err(s.ctxErr)))
    decreases c.connectRetries - k
  {
    var one := DialOnce(c, s.attempts(k));
    if one.result.Err? && k < c.connectRetries && !s.cutShort(k) {
      DialIsBounded(c, s, k + 1, WrapInt64(2 * backoff));
    }
  }

  function Pow2(k: nat): nat {
    if k == 0 then 1 else 2 * Pow2(k - 1)
  }

  // b doubled k times over the unbounded integers.
  function Doubled(b: nat, k: nat): nat {
    if k == 0 then b else 2 * Doubled(b, k - 1)
  }

  lemma {:induction false} DoubledIsPow2(b: nat, k: nat)
    ensures Doubled(b, k) == b * Pow2(k)
  {
    if k > 0 {
      DoubledIsPow2(b, k - 1);
      assert b * (2 * Pow2(k - 1)) == 2 * (b * Pow2(k - 1));
    }
  }

  // The wait after attempt k as the loop computes it, and the sum of the waits before attempt k.
  function Backoff(b: int, k: nat): int {
    if k == 0 then b else WrapInt64(2 * Backoff(b, k - 1))
  }

  function WaitedBefore(b: int, k: nat): nat {
    if k == 0 then 0 else WaitedBefore(b, k - 1) + Max(0, Backoff(b, k - 1))
  }

  lemma {:induction false} WaitIsSumOfBackoffs(c: DialConfig, s: Script, k: nat, backoff: int)
    requires backoff == Backoff(c.connectBackoff, k)
    ensures var b, r := c.connectBackoff, DialFrom(c, s, k, backoff);
            WaitedBefore(b, k) + r.waited == WaitedBefore(b, k + r.attempts - 1)
    decreases c.connectRetries - k
  {
    var one := DialOnce(c, s.attempts(k));
    if one.result.Err? && k < c.connectRetries && !s.cutShort(k) {
      var rest := DialFrom(c, s, k + 1, WrapInt64(2 * backoff));
      WaitIsSumOfBackoffs(c, s, k + 1, WrapInt64(2 * backoff));
      assert DialFrom(c, s, k, backoff) == Plus(one.(waited := Max(0, backoff)), rest);
      assert WaitedBefore(c.connectBackoff, k + 1) == WaitedBefore(c.connectBackoff, k) + Max(0, backoff);
    }
  }

  // A backoff is b * 2^k as long as that fits in 64 bits, and smaller as soon as it does not.
  lemma {:induction false} BackoffDoubles(b: nat, k: nat)
    requires b < TWO_TO_THE_63
    ensures -TWO_TO_THE_63 <= Backoff(b, k) < TWO_TO_THE_63
    ensures Backoff(b, k) <= Doubled(b, k)
    ensures Backoff(b, k) == Doubled(b, k) <==> Doubled(b, k) < TWO_TO_THE_63
  {
    if k > 0 {
      BackoffDoubles(b, k - 1);
    }
  }

  // The waits before attempt k add up to b * 2^k - b exactly when the last of them did not overflow.
  lemma {:induction false} WaitsAddUp(b: nat, k: nat)
    requires b < TWO_TO_THE_63
    ensures WaitedBefore(b, k) <= Doubled(b, k) - b
    ensures WaitedBefore(b, k) == Doubled(b, k) - b <==> k == 0 || Doubled(b, k - 1) < TWO_TO_THE_63
  {
    if k > 0 {
      WaitsAddUp(b, k - 1);
      BackoffDoubles(b, k - 1);
    }
  }

  // In closed form.
  lemma WaitsInClosedForm(b: nat, k: nat)
    requires b < TWO_TO_THE_63
    ensures WaitedBefore(b, k) == b * (Pow2(k) - 1) <==> k == 0 || b * Pow2(k - 1) < TWO_TO_THE_63
  {
    WaitsAddUp(b, k);
    DoubledLessOne(b, k);
    if k > 0 {
      DoubledIsPow2(b, k - 1);
    }
  }

  lemma DoubledLessOne(b: nat, k: nat)
    ensures b * (Pow2(k) - 1) == Doubled(b, k) - b
  {
    DoubledIsPow2(b, k);
    LessOne(b, Pow2(k));
  }

  lemma LessOne(b: nat, p: nat)
    ensures b * (p - 1) == b * p - b
  {
  }

  lemma DelayInClosedForm(b: nat, n: nat, waited: nat)
    requires b < TWO_TO_THE_63 && n >= 1 && waited == WaitedBefore(b, n - 1)
    ensures waited == b * (Pow2(n - 1) - 1) <==> (n == 1 || b * Pow2(n - 2) < TWO_TO_THE_63)
  {
    WaitsInClosedForm(b, n - 1);
  }

  // A connect that made n attempts waited b * (2^(n-1) - 1) in all, exactly when b * 2^(n-2),
  // its last wait, fits in 64 bits.
  lemma ConnectDelay(c: DialConfig, s: Script)
    requires 0 <= c.connectBackoff < TWO_TO_THE_63
    ensures var b, r := c.connectBackoff, DialFrom(c, s, 0, c.connectBackoff);
            r.waited == b * (Pow2(r.attempts - 1) - 1) <==>
              (r.attempts == 1 || b * Pow2(r.attempts - 2) < TWO_TO_THE_63)
  {
    var r := DialFrom(c, s, 0, c.connectBackoff);
    WaitIsSumOfBackoffs(c, s, 0, c.connectBackoff);
    DelayInClosedForm(c.connectBackoff, r.attempts, r.waited);
  }

  // One attempt comes up exactly if the name resolves, the inner loop ends with a socket and, for
  // TLS, the handshake succeeds; it fails with the first error it meets, in that order, and then
  // closes the socket it had.
  lemma DialOnceIsUpIff(c: DialConfig, a: Attempt)
    ensures var r, socket := DialOnce(c, a).result, SocketFrom(c.privPorts, a.sockets, 0);
            && (r.Ok? <==> a.lookup.Ok? && socket.0.None? && (c.ssl ==> a.handshake.None?))
            && (r.Ok? ==> r.value == Connection(a.lookup.value, a.arrivals, a.sends))
            && (a.lookup.Err? ==> r == Err(a.lookup.error) && DialOnce(c, a).dialed == 0)
            && (a.lookup.Ok? ==> DialOnce(c, a).dialed == socket.1)
            && (a.lookup.Ok? && socket.0.Some? ==> r == Err(socket.0.value))
            && (DialOnce(c, a).aborted > 0 <==> Aborts(c, a))
            && (Aborts(c, a) ==> r == Err(a.handshake.value))
  {
  }

  // A socket came up, and its handshake failed.
  predicate Aborts(c: DialConfig, a: Attempt) {
    a.lookup.Ok? && SocketFrom(c.privPorts, a.sockets, 0).0.None? && c.ssl && a.handshake.Some?
  }

  // How many of attempts k to k+n-1 end in a failed handshake, and how many sockets they dial.
  function Failures(c: DialConfig, s: Script, k: nat, n: nat): nat {
    if n == 0 then 0 else Failures(c, s, k, n - 1) + if Aborts(c, s.attempts(k + n - 1)) then 1 else 0
  }

  function Sockets(c: DialConfig, s: Script, k: nat, n: nat): nat {
    if n == 0 then 0
    else
      var a := s.attempts(k + n - 1);
      Sockets(c, s, k, n - 1) + if a.lookup.Ok? then SocketFrom(c.privPorts, a.sockets, 0).1 else 0
  }

  lemma {:induction false} CountedFromFirst(c: DialConfig, s: Script, k: nat, n: nat)
    requires n > 0
    ensures Failures(c, s, k, n) == (if Aborts(c, s.attempts(k)) then 1 else 0) + Failures(c, s, k + 1, n - 1)
    ensures Sockets(c, s, k, n) == DialOnce(c, s.attempts(k)).dialed + Sockets(c, s, k + 1, n - 1)
  {
    if n > 1 {
      CountedFromFirst(c, s, k, n - 1);
    }
  }

  // A connect opened and closed one socket per failed handshake, and dialed as many as its attempts did.
  lemma {:induction false} ConnectCounts(c: DialConfig, s: Script, k: nat, backoff: int)
    ensures var r := DialFrom(c, s, k, backoff);
            r.aborted == Failures(c, s, k, r.attempts) && r.dialed == Sockets(c, s, k, r.attempts)
    decreases c.connectRetries - k
  {
    var one := DialOnce(c, s.attempts(k));
    CountedFromFirst(c, s, k, DialFrom(c, s, k, backoff).attempts);
    if one.result.Err? && k < c.connectRetries && !s.cutShort(k) {
      var rest := DialFrom(c, s, k + 1, WrapInt64(2 * backoff));
      ConnectCounts(c, s, k + 1, WrapInt64(2 * backoff));
      assert DialFrom(c, s, k, backoff) == Plus(one.(waited := Max(0, backoff)), rest);
    }
  }

  // A refused or reset connect means the target is up; any other failure says nothing.
  function ClassifyConnectErr(e: DialError): ProbeResult {
    ProbeResult(if e.errno == ECONNREFUSED || e.errno == ECONNRESET then ErrUp else ErrUnknown, Text(e.text))
  }
}
