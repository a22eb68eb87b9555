/** The places of a list that a filter keeps, in order: what a filter means, without saying how it goes through. */
module Picking {
  /** `ks` lists, in increasing order, the places below `n` that are kept, and no others. */
  ghost predicate Picked(ks: seq<nat>, n: nat, keep: nat -> bool) {
    && (forall i, j | 0 <= i < j < |ks| :: ks[i] < ks[j])
    && (forall i | 0 <= i < |ks| :: ks[i] < n && keep(ks[i]))
    && (forall k: nat | k < n && keep(k) :: k in ks)
  }

  predicate Below(ks: seq<nat>, n: nat) {
    forall i | 0 <= i < |ks| :: ks[i] < n
  }

  /** The values of a list at some places. */
  function At<T>(xs: seq<T>, ks: seq<nat>): (ys: seq<T>)
    requires Below(ks, |xs|)
    ensures |ys| == |ks| && forall i | 0 <= i < |ys| :: ys[i] == xs[ks[i]]
  {
    seq(|ks|, i requires 0 <= i < |ks| => xs[ks[i]])
  }

  lemma PickedSnoc(ks: seq<nat>, n: nat, keep: nat -> bool, next: seq<nat>)
    requires Picked(ks, n, keep) && next == if keep(n) then ks + [n] else ks
    ensures Picked(next, n + 1, keep)
  {
    forall k: nat | k < n + 1 && keep(k) ensures k in next {
      if k < n { assert k in ks; }
    }
  }

  function Shifted(ks: seq<nat>): (next: seq<nat>)
    ensures |next| == |ks| && forall i | 0 <= i < |ks| :: next[i] == ks[i] + 1
  {
    seq(|ks|, i requires 0 <= i < |ks| => ks[i] + 1)
  }

  predicate Increasing(ks: seq<nat>) {
    forall i, j | 0 <= i < j < |ks| :: ks[i] < ks[j]
  }

  lemma ShiftedIncreases(ks: seq<nat>, head: bool, next: seq<nat>)
    requires Increasing(ks) && next == (if head then [0] else []) + Shifted(ks)
    ensures Increasing(next)
  {
  }

  lemma ShiftedHolds(ks: seq<nat>, head: bool, next: seq<nat>, k: nat)
    requires next == (if head then [0] else []) + Shifted(ks)
    ensures k in next <==> (k == 0 && head) || (k > 0 && k - 1 in ks)
  {
    if k > 0 && k - 1 in ks {
      var i :| 0 <= i < |ks| && ks[i] == k - 1;
      assert next[|next| - |ks| + i] == k;
    }
    if k == 0 && head { assert next[0] == 0; }
  }

  /** One more place, before the others. */
  lemma PickedCons(ks: seq<nat>, n: nat, rest: nat -> bool, keep: nat -> bool, next: seq<nat>)
    requires Picked(ks, n, rest) && forall k: nat | k < n :: rest(k) == keep(k + 1)
    requires next == (if keep(0) then [0] else []) + Shifted(ks)
    ensures Picked(next, n + 1, keep)
  {
    ShiftedIncreases(ks, keep(0), next);
    forall k: nat ensures k in next <==> k < n + 1 && keep(k) {
      ShiftedHolds(ks, keep(0), next, k);
      PickedIff(ks, n, rest, if k > 0 then k - 1 else 0);
    }
    PickedFrom(next, n + 1, keep);
  }

  lemma PickedIff(ks: seq<nat>, n: nat, keep: nat -> bool, k: nat)
    requires Picked(ks, n, keep)
    ensures k in ks <==> k < n && keep(k)
  {
    if k in ks {
      var i :| 0 <= i < |ks| && ks[i] == k;
    }
  }

  lemma PickedFrom(ks: seq<nat>, n: nat, keep: nat -> bool)
    requires Increasing(ks) && forall k: nat :: k in ks <==> k < n && keep(k)
    ensures Picked(ks, n, keep)
  {
    forall i | 0 <= i < |ks| ensures ks[i] < n && keep(ks[i]) { assert ks[i] in ks; }
  }

  /** The values at one place more, at the front. */
  lemma AtCons<T>(xs: seq<T>, ks: seq<nat>, kept: bool, next: seq<nat>)
    requires xs != [] && Below(ks, |xs| - 1) && next == (if kept then [0] else []) + Shifted(ks)
    ensures Below(next, |xs|) && At(xs, next) == (if kept then [xs[0]] else []) + At(xs[1..], ks)
  {
  }

  /** The values at one place more, at the end. */
  lemma AtSnoc<T>(xs: seq<T>, ks: seq<nat>, kept: bool, next: seq<nat>)
    requires xs != [] && Below(ks, |xs| - 1) && next == if kept then ks + [|xs| - 1] else ks
    ensures Below(next, |xs|)
    ensures At(xs, next) == At(xs[..|xs| - 1], ks) + (if kept then [xs[|xs| - 1]] else [])
  {
  }

  /** Whatever agrees on the places below `n` picks the same. */
  lemma PickedSame(ks: seq<nat>, n: nat, keep: nat -> bool, other: nat -> bool)
    requires Picked(ks, n, keep) && forall k: nat | k < n :: keep(k) == other(k)
    ensures Picked(ks, n, other)
  {
  }

  /** There is only one such listing. */
  lemma {:induction false} PickedOnce(ks: seq<nat>, ls: seq<nat>, n: nat, keep: nat -> bool)
    requires Picked(ks, n, keep) && Picked(ls, n, keep)
    ensures ks == ls
    decreases n
  {
    if n > 0 {
      var m := n - 1;
      if keep(m) {
        LastIs(ks, n, keep);
        LastIs(ls, n, keep);
        PickedOnce(ks[..|ks| - 1], ls[..|ls| - 1], m, keep);
        assert ks == ks[..|ks| - 1] + [m] && ls == ls[..|ls| - 1] + [m];
      } else {
        PickedOnce(ks, ls, m, keep);
      }
    }
  }

  lemma LastIs(ks: seq<nat>, n: nat, keep: nat -> bool)
    requires n > 0 && Picked(ks, n, keep) && keep(n - 1)
    ensures ks != [] && ks[|ks| - 1] == n - 1 && Picked(ks[..|ks| - 1], n - 1, keep)
  {
    var i :| 0 <= i < |ks| && ks[i] == n - 1;
    assert ks[i] <= ks[|ks| - 1];
    forall k: nat | k < n - 1 && keep(k) ensures k in ks[..i] {
      var j :| 0 <= j < |ks| && ks[j] == k;
      assert ks[..i][j] == k;
    }
  }
}
