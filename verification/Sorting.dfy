/** The stable sort of numbered values, which puts a regrouped list back in the order of its numbers. */
module Sorting {

  datatype Indexed<T> = Indexed(index: nat, value: T)

  function Insert<T>(x: Indexed<T>, xs: seq<Indexed<T>>): seq<Indexed<T>>
    decreases |xs|
  {
    if xs == [] || xs[|xs| - 1].index <= x.index then xs + [x] else Insert(x, xs[..|xs| - 1]) + [xs[|xs| - 1]]
  }

  /** The stable sort by index. */
  function Sort<T>(xs: seq<Indexed<T>>): seq<Indexed<T>>
    decreases |xs|
  {
    if xs == [] then [] else Insert(xs[|xs| - 1], Sort(xs[..|xs| - 1]))
  }

  predicate Sorted<T>(xs: seq<Indexed<T>>) {
    forall i, j | 0 <= i < j < |xs| :: xs[i].index <= xs[j].index
  }

  lemma {:induction false} InsertAdds<T>(x: Indexed<T>, xs: seq<Indexed<T>>)
    ensures multiset(Insert(x, xs)) == multiset(xs) + multiset{x}
    decreases |xs|
  {
    if xs != [] && xs[|xs| - 1].index > x.index {
      InsertAdds(x, xs[..|xs| - 1]);
      WithoutLast(xs);
    }
  }

  lemma {:induction false} InsertBelow<T>(x: Indexed<T>, xs: seq<Indexed<T>>, top: nat)
    requires x.index <= top && forall i | 0 <= i < |xs| :: xs[i].index <= top
    ensures forall i | 0 <= i < |Insert(x, xs)| :: Insert(x, xs)[i].index <= top
    decreases |xs|
  {
    if xs != [] && xs[|xs| - 1].index > x.index { InsertBelow(x, xs[..|xs| - 1], top); }
  }

  lemma SortedSnoc<T>(xs: seq<Indexed<T>>, last: Indexed<T>)
    requires Sorted(xs) && forall i | 0 <= i < |xs| :: xs[i].index <= last.index
    ensures Sorted(xs + [last])
  {
  }

  lemma {:induction false} InsertSorts<T>(x: Indexed<T>, xs: seq<Indexed<T>>)
    requires Sorted(xs)
    ensures Sorted(Insert(x, xs))
    decreases |xs|
  {
    if xs != [] && xs[|xs| - 1].index > x.index {
      var most, last := xs[..|xs| - 1], xs[|xs| - 1];
      InsertSorts(x, most);
      InsertBelow(x, most, last.index);
      SortedSnoc(Insert(x, most), last);
    } else {
      SortedSnoc(xs, x);
    }
  }

  lemma {:induction false} SortSorts<T>(xs: seq<Indexed<T>>)
    ensures Sorted(Sort(xs)) && multiset(Sort(xs)) == multiset(xs)
    decreases |xs|
  {
    if xs != [] {
      SortSorts(xs[..|xs| - 1]);
      InsertSorts(xs[|xs| - 1], Sort(xs[..|xs| - 1]));
      InsertAdds(xs[|xs| - 1], Sort(xs[..|xs| - 1]));
      WithoutLast(xs);
    }
  }

  predicate Increasing<T>(ys: seq<Indexed<T>>) {
    forall i, j | 0 <= i < j < |ys| :: ys[i].index < ys[j].index
  }

  lemma LastIsLargest<T>(xs: seq<Indexed<T>>, ys: seq<Indexed<T>>)
    requires Sorted(xs) && Increasing(ys) && xs != [] && ys != [] && multiset(xs) == multiset(ys)
    ensures xs[|xs| - 1] == ys[|ys| - 1]
  {
    var x, y := xs[|xs| - 1], ys[|ys| - 1];
    assert y in multiset(xs);
    var j :| 0 <= j < |xs| && xs[j] == y;
    assert x in multiset(ys);
    var i :| 0 <= i < |ys| && ys[i] == x;
  }

  lemma WithoutLast<T>(xs: seq<T>)
    requires xs != []
    ensures multiset(xs) == multiset(xs[..|xs| - 1]) + multiset{xs[|xs| - 1]}
    ensures multiset(xs[..|xs| - 1]) == multiset(xs) - multiset{xs[|xs| - 1]}
  {
    assert xs == xs[..|xs| - 1] + [xs[|xs| - 1]];
  }

  lemma SameLength<T>(xs: seq<T>, ys: seq<T>)
    requires multiset(xs) == multiset(ys)
    ensures |xs| == |ys|
  {
    assert |xs| == |multiset(xs)| && |ys| == |multiset(ys)|;
  }

  lemma SameEnds<T>(xs: seq<T>, ys: seq<T>)
    requires |xs| == |ys| > 0 && xs[..|xs| - 1] == ys[..|ys| - 1] && xs[|xs| - 1] == ys[|ys| - 1]
    ensures xs == ys
  {
    forall i | 0 <= i < |xs| ensures xs[i] == ys[i] {
      if i < |xs| - 1 { assert xs[..|xs| - 1][i] == ys[..|ys| - 1][i]; }
    }
  }

  /** A sorted arrangement of a strictly increasing list is that list. */
  lemma {:induction false} SortedIsUnique<T>(xs: seq<Indexed<T>>, ys: seq<Indexed<T>>)
    requires Sorted(xs) && Increasing(ys) && multiset(xs) == multiset(ys)
    ensures xs == ys
    decreases |ys|
  {
    SameLength(xs, ys);
    if ys != [] {
      LastIsLargest(xs, ys);
      WithoutLast(xs);
      WithoutLast(ys);
      SortedIsUnique(xs[..|xs| - 1], ys[..|ys| - 1]);
      SameEnds(xs, ys);
    }
  }

  lemma TakeMore<T>(xs: seq<T>, i: nat)
    requires i < |xs|
    ensures multiset(xs[..i + 1]) == multiset(xs[..i]) + multiset{xs[i]}
  {
    assert xs[..i + 1] == xs[..i] + [xs[i]];
  }
}
