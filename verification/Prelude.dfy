/** Small shared vocabulary: optional values and integer sums over sequences. */
module Prelude {

  datatype Option<+T> = None | Some(value: T)

  /** Sum of `f` over the elements of `s`. */
  function Sum<X>(s: seq<X>, f: X -> int): int {
    if s == [] then 0 else Sum(s[..|s| - 1], f) + f(s[|s| - 1])
  }

  lemma {:induction false} SumAppend<X>(s: seq<X>, x: X, f: X -> int)
    ensures Sum(s + [x], f) == Sum(s, f) + f(x)
  {
    assert (s + [x])[..|s + [x]| - 1] == s;
  }

  lemma {:induction false} SumUpdate<X>(s: seq<X>, i: nat, x: X, f: X -> int)
    requires i < |s|
    ensures Sum(s[i := x], f) == Sum(s, f) - f(s[i]) + f(x)
  {
    var n := |s| - 1;
    if i == n {
      assert s[i := x][..n] == s[..n];
    } else {
      assert s[i := x][..n] == s[..n][i := x];
      SumUpdate(s[..n], i, x, f);
    }
  }

  lemma {:induction false} SumNonNegative<X>(s: seq<X>, f: X -> int)
    requires forall i :: 0 <= i < |s| ==> f(s[i]) >= 0
    ensures Sum(s, f) >= 0
    ensures forall i :: 0 <= i < |s| ==> f(s[i]) <= Sum(s, f)
  {
    if s != [] {
      SumNonNegative(s[..|s| - 1], f);
      assert forall i :: 0 <= i < |s| - 1 ==> s[..|s| - 1][i] == s[i];
    }
  }

  /** A positive sum has a positive summand. */
  lemma {:induction false} SumPositiveWitness<X>(s: seq<X>, f: X -> int) returns (i: nat)
    requires Sum(s, f) > 0
    ensures i < |s| && f(s[i]) > 0
  {
    if f(s[|s| - 1]) > 0 {
      i := |s| - 1;
    } else {
      i := SumPositiveWitness(s[..|s| - 1], f);
    }
  }

  lemma {:induction false} SumMonotone<X>(s: seq<X>, f: X -> int, g: X -> int)
    requires forall i :: 0 <= i < |s| ==> f(s[i]) <= g(s[i])
    ensures Sum(s, f) <= Sum(s, g)
  {
    if s != [] {
      assert forall i :: 0 <= i < |s| - 1 ==> s[..|s| - 1][i] == s[i];
      SumMonotone(s[..|s| - 1], f, g);
    }
  }

  lemma {:induction false} SumZero<X>(s: seq<X>, f: X -> int)
    requires forall i :: 0 <= i < |s| ==> f(s[i]) == 0
    ensures Sum(s, f) == 0
  {
    if s != [] {
      assert forall i :: 0 <= i < |s| - 1 ==> s[..|s| - 1][i] == s[i];
      SumZero(s[..|s| - 1], f);
    }
  }
}
