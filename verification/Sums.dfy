/** Sums of counts, one for each index. */
module Sums {

  function Sum(xs: seq<nat>): nat
    decreases |xs|
  {
    if xs == [] then 0 else Sum(xs[..|xs| - 1]) + xs[|xs| - 1]
  }

  lemma {:induction false} SumUpdate(xs: seq<nat>, c: nat, v: nat)
    requires c < |xs|
    ensures Sum(xs[c := v]) == Sum(xs) - xs[c] + v
    decreases |xs|
  {
    var n := |xs| - 1;
    if c < n {
      SumUpdate(xs[..n], c, v);
      assert xs[c := v][..n] == xs[..n][c := v];
    } else {
      assert xs[c := v][..n] == xs[..n];
    }
  }

  lemma {:induction false} SumMonotone(xs: seq<nat>, ys: seq<nat>)
    requires |xs| == |ys| && forall i | 0 <= i < |xs| :: xs[i] <= ys[i]
    ensures Sum(xs) <= Sum(ys)
    decreases |xs|
  {
    if xs != [] { SumMonotone(xs[..|xs| - 1], ys[..|ys| - 1]); }
  }

  lemma {:induction false} SumZero(xs: seq<nat>)
    requires forall i | 0 <= i < |xs| :: xs[i] == 0
    ensures Sum(xs) == 0
    decreases |xs|
  {
    if xs != [] { SumZero(xs[..|xs| - 1]); }
  }

  lemma {:induction false} SumPositive(xs: seq<nat>) returns (c: nat)
    requires Sum(xs) > 0
    ensures c < |xs| && xs[c] > 0
    decreases |xs|
  {
    if xs[|xs| - 1] > 0 { c := |xs| - 1; } else { c := SumPositive(xs[..|xs| - 1]); }
  }

  lemma {:induction false} SumAtLeast(xs: seq<nat>, c: nat)
    requires c < |xs|
    ensures xs[c] <= Sum(xs)
    decreases |xs|
  {
    if c < |xs| - 1 { SumAtLeast(xs[..|xs| - 1], c); }
  }

  lemma {:induction false} SumAtLeastTwo(xs: seq<nat>, c: nat, d: nat)
    requires c < d < |xs|
    ensures xs[c] + xs[d] <= Sum(xs)
    decreases |xs|
  {
    var most := xs[..|xs| - 1];
    if d < |xs| - 1 { SumAtLeastTwo(most, c, d); } else { SumAtLeast(most, c); }
  }
}
