/** The key under which the coordinator files a target that is still unresolved: "host:port". */
module PendingKey {
  import opened ScanTypes

  function Digit(d: int): char
    requires 0 <= d < 10
  {
    '0' + d as char
  }

  // Decimal printing, as the %d verb does it.
  function Digits(n: nat): (s: string)
    ensures s != []
    ensures forall i :: 0 <= i < |s| ==> '0' <= s[i] <= '9'
  {
    if n < 10 then [Digit(n)] else Digits(n / 10) + [Digit(n % 10)]
  }

  function Decimal(n: int): string {
    if n < 0 then "-" + Digits(-n) else Digits(n)
  }

  function Key(host: string, port: int): string {
    host + ":" + Decimal(port)
  }

  function KeyOf(t: Target): string {
    Key(t.host, t.port)
  }

  function RecordKey(r: Record): string {
    Key(r.host, r.port)
  }

  // Reads a decimal numeral back; the left inverse of Digits.
  function ParseDigits(s: string): int
    requires forall i :: 0 <= i < |s| ==> '0' <= s[i] <= '9'
  {
    if s == [] then 0 else 10 * ParseDigits(s[..|s| - 1]) + (s[|s| - 1] as int - '0' as int)
  }

  lemma {:induction false} DigitsRoundTrip(n: nat)
    ensures ParseDigits(Digits(n)) == n
  {
    if n >= 10 {
      DigitsRoundTrip(n / 10);
      assert Digits(n)[..|Digits(n)| - 1] == Digits(n / 10);
    } else {
      assert Digits(n)[..0] == [];
    }
  }

  lemma DecimalInjective(a: int, b: int)
    requires Decimal(a) == Decimal(b)
    ensures a == b
  {
    var x, y := if a < 0 then -a else a, if b < 0 then -b else b;
    DigitsRoundTrip(x);
    DigitsRoundTrip(y);
    assert (a < 0) == (Decimal(a)[0] == '-');
    assert (b < 0) == (Decimal(b)[0] == '-');
    if a < 0 {
      assert Digits(x) == Decimal(a)[1..] == Decimal(b)[1..] == Digits(y);
    }
  }

  lemma DecimalHasNoColon(n: int)
    ensures ':' !in Decimal(n)
  {
  }

  // If one text splits at a colon in two places, the later digits hold a colon.
  lemma ShorterHostMeansColon(h1: string, d1: string, h2: string, d2: string)
    requires h1 + ":" + d1 == h2 + ":" + d2 && |h1| < |h2|
    ensures ':' in d1
  {
    assert d1[|h2| - |h1| - 1] == (h1 + ":" + d1)[|h2|] == (h2 + ":" + d2)[|h2|];
  }

  // Two keys are equal exactly when host and port both are, whatever colons the host holds.
  lemma KeyInjective(h1: string, p1: int, h2: string, p2: int)
    ensures Key(h1, p1) == Key(h2, p2) <==> h1 == h2 && p1 == p2
  {
    var d1, d2 := Decimal(p1), Decimal(p2);
    var k1, k2 := Key(h1, p1), Key(h2, p2);
    if k1 == k2 {
      DecimalHasNoColon(p1);
      DecimalHasNoColon(p2);
      if |h1| < |h2| {
        ShorterHostMeansColon(h1, d1, h2, d2);
      } else if |h2| < |h1| {
        ShorterHostMeansColon(h2, d2, h1, d1);
      } else {
        assert h1 == k1[..|h1|] == h2;
        assert d1 == k1[|h1| + 1..] == d2;
        DecimalInjective(p1, p2);
      }
    }
  }

  // A list filed under a key of each element; a later element replaces an earlier one.
  function FiledBy<T, K>(ts: seq<T>, key: T -> K): map<K, T> {
    if ts == [] then map[]
    else FiledBy(ts[..|ts| - 1], key)[key(ts[|ts| - 1]) := ts[|ts| - 1]]
  }

  lemma {:induction false} FiledByFinds<T, K>(ts: seq<T>, key: T -> K, k: K)
    ensures k in FiledBy(ts, key) <==> exists i :: 0 <= i < |ts| && key(ts[i]) == k
    ensures k in FiledBy(ts, key) ==> FiledBy(ts, key)[k] in ts && key(FiledBy(ts, key)[k]) == k
  {
    if ts != [] {
      var front, last := ts[..|ts| - 1], |ts| - 1;
      FiledByFinds(front, key, k);
      if k in FiledBy(front, key) {
        var i :| 0 <= i < |front| && key(front[i]) == k;
        assert key(ts[i]) == k;
      } else if i :| 0 <= i < |ts| && key(ts[i]) == k {
        assert i < last ==> key(front[i]) == k;
      }
      assert FiledBy(front, key).Keys <= FiledBy(ts, key).Keys;
    }
  }

  lemma FiledByOneMore<T, K>(m: map<K, T>, ts: seq<T>, key: T -> K, i: nat)
    requires i < |ts|
    ensures (m + FiledBy(ts[..i], key))[key(ts[i]) := ts[i]] == m + FiledBy(ts[..i + 1], key)
  {
    assert ts[..i + 1][..i] == ts[..i];
  }

  // The pending map a coordinator builds from its target list.
  function PendingOf(ts: seq<Target>): map<string, Target> {
    FiledBy(ts, (t: Target) => KeyOf(t))
  }

  lemma PendingFilesTargets(ts: seq<Target>, k: string)
    ensures k in PendingOf(ts) <==> exists i :: 0 <= i < |ts| && KeyOf(ts[i]) == k
    ensures k in PendingOf(ts) ==> PendingOf(ts)[k] in ts && KeyOf(PendingOf(ts)[k]) == k
  {
    FiledByFinds(ts, (t: Target) => KeyOf(t), k);
  }

  // The string-keyed map is a map keyed by (host, port): looking a pair up under its
  // printed key finds a target exactly when one with that host and that port was filed.
  lemma PendingRefinesPairs(ts: seq<Target>, host: string, port: int)
    ensures Key(host, port) in PendingOf(ts) <==> exists i :: 0 <= i < |ts| && ts[i].host == host && ts[i].port == port
    ensures Key(host, port) in PendingOf(ts) ==>
              PendingOf(ts)[Key(host, port)].host == host && PendingOf(ts)[Key(host, port)].port == port
  {
    PendingFilesTargets(ts, Key(host, port));
    forall i | 0 <= i < |ts|
      ensures KeyOf(ts[i]) == Key(host, port) <==> ts[i].host == host && ts[i].port == port
    {
      KeyInjective(ts[i].host, ts[i].port, host, port);
    }
    if Key(host, port) in PendingOf(ts) {
      var t := PendingOf(ts)[Key(host, port)];
      KeyInjective(t.host, t.port, host, port);
    }
  }
}
