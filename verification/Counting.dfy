/** Counting the elements of a sequence that satisfy a predicate, and summing a measure over it. */
module Counting {

  function Count<T>(s: seq<T>, p: T -> bool): nat {
    if s == [] then 0 else Count(s[..|s| - 1], p) + if p(s[|s| - 1]) then 1 else 0
  }

  lemma CountPush<T>(s: seq<T>, v: T, p: T -> bool)
    ensures Count(s + [v], p) == Count(s, p) + if p(v) then 1 else 0
  {
    assert (s + [v])[..|s|] == s;
  }

  lemma {:induction false} CountUpdate<T>(s: seq<T>, i: nat, v: T, p: T -> bool)
    requires i < |s|
    ensures Count(s[i := v], p) == Count(s, p) + (if p(v) then 1 else 0) - (if p(s[i]) then 1 else 0)
  {
    var front, last := s[..|s| - 1], |s| - 1;
    if i < last {
      CountUpdate(front, i, v, p);
      assert s[i := v][..last] == front[i := v];
    } else {
      assert s[i := v][..last] == front;
    }
  }

  lemma {:induction false} CountNone<T>(s: seq<T>, p: T -> bool)
    requires forall i :: 0 <= i < |s| ==> !p(s[i])
    ensures Count(s, p) == 0
  {
    if s != [] {
      CountNone(s[..|s| - 1], p);
    }
  }

  lemma {:induction false} CountBound<T>(s: seq<T>, p: T -> bool)
    ensures Count(s, p) <= |s|
  {
    if s != [] {
      CountBound(s[..|s| - 1], p);
    }
  }

  lemma {:induction false} CountSome<T>(s: seq<T>, p: T -> bool)
    ensures Count(s, p) > 0 <==> exists i :: 0 <= i < |s| && p(s[i])
  {
    if s != [] {
      CountSome(s[..|s| - 1], p);
    }
  }

  // The sum of a measure over a sequence.
  function Sum<T>(s: seq<T>, f: T -> nat): nat {
    if s == [] then 0 else Sum(s[..|s| - 1], f) + f(s[|s| - 1])
  }

  lemma SumPush<T>(s: seq<T>, v: T, f: T -> nat)
    ensures Sum(s + [v], f) == Sum(s, f) + f(v)
  {
    assert (s + [v])[..|s|] == s;
  }

  lemma {:induction false} SumUpdate<T>(s: seq<T>, i: nat, v: T, f: T -> nat)
    requires i < |s|
    ensures Sum(s[i := v], f) == Sum(s, f) - f(s[i]) + f(v)
  {
    var front, last := s[..|s| - 1], |s| - 1;
    if i < last {
      SumUpdate(front, i, v, f);
      assert s[i := v][..last] == front[i := v];
    } else {
      assert s[i := v][..last] == front;
    }
  }

  lemma {:induction false} SumSome<T>(s: seq<T>, f: T -> nat)
    requires Sum(s, f) > 0
    ensures exists i :: 0 <= i < |s| && f(s[i]) > 0
  {
    if f(s[|s| - 1]) == 0 {
      SumSome(s[..|s| - 1], f);
    }
  }
}
