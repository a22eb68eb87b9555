/**
 When a call can run at all: what it needs of each lock at once, against the lock's permits. It says exactly which
 workloads of one call deadlock, and which calls of any workload do.
 */
module SchedulingFit {
  import opened Base
  import opened Scheduling
  import opened SchedulingLiveness
  import opened Sums

  /** The permits of `l` that are held while call `c` runs: its own, and those of the call it is part of. */
  function Needed(w: Workload, c: nat, l: Lock): nat
    requires Nested(w) && c < |w.calls|
  {
    var parent := w.calls[c].parent;
    Occurrences(LocksOf(w, c), l) + (if parent.Some? then Occurrences(LocksOf(w, parent.value), l) else 0)
  }

  predicate Fits(w: Workload, c: nat)
    requires Nested(w) && c < |w.calls|
  {
    forall i | 0 <= i < |LocksOf(w, c)| :: Needed(w, c, LocksOf(w, c)[i]) <= Capacity(LocksOf(w, c)[i])
  }

  lemma RunnerHoldsAll(w: Workload, s: State, c: nat, l: Lock)
    requires Shaped(w, s) && c < |s| && Running(w, s, c)
    ensures HeldBy(w, s, c, l) == Occurrences(LocksOf(w, c), l)
  {
    assert LocksOf(w, c)[..s[c].held] == LocksOf(w, c);
  }

  /** On any schedule, what runs needs no more of a lock than it has. */
  lemma RunsOnlyIfItFits(w: Workload, moves: seq<Move>, c: nat, l: Lock)
    requires Nested(w) && c < |w.calls|
    requires Running(w, After(w, moves), c) && Started(w, After(w, moves), c)
    ensures Needed(w, c, l) <= Capacity(l)
  {
    var s := After(w, moves);
    CapacityIsKept(w, moves, l);
    RunnerHoldsAll(w, s, c, l);
    if w.calls[c].parent.Some? {
      RunnerHoldsAll(w, s, w.calls[c].parent.value, l);
      SumAtLeastTwo(Helds(w, s, l), w.calls[c].parent.value, c);
    } else {
      SumAtLeast(Helds(w, s, l), c);
    }
  }

  lemma UnfitNeverRuns(w: Workload, moves: seq<Move>, c: nat)
    requires Nested(w) && c < |w.calls| && !Fits(w, c)
    ensures !(Running(w, After(w, moves), c) && Started(w, After(w, moves), c))
  {
    var i :| 0 <= i < |LocksOf(w, c)| && Needed(w, c, LocksOf(w, c)[i]) > Capacity(LocksOf(w, c)[i]);
    if Running(w, After(w, moves), c) && Started(w, After(w, moves), c) {
      RunsOnlyIfItFits(w, moves, c, LocksOf(w, c)[i]);
    }
  }

  /** Only its own settling or interruption takes a call out of entering. */
  lemma StaysEntering(w: Workload, s: State, c: nat, m: Move)
    requires Shaped(w, s) && c < |s| && s[c].Entering? && m != Stop(c)
    requires !(Running(w, s, c) && Started(w, s, c))
    ensures Step(w, s, m)[c].Entering?
  {
  }

  /**
   MAIN: a call that needs more permits of a lock than it has -- one scheduling value combined with itself, or a
   caller that keeps what its own nested call takes -- never settles, on any schedule of any workload: unless it is
   interrupted it waits for ever.
   */
  lemma {:induction false} UnfitNeverSettles(w: Workload, moves: seq<Move>, c: nat)
    requires Nested(w) && c < |w.calls| && !Fits(w, c)
    requires forall i | 0 <= i < |moves| :: moves[i] != Stop(c)
    ensures After(w, moves)[c].Entering?
    decreases |moves|
  {
    if moves != [] {
      var most, m := moves[..|moves| - 1], moves[|moves| - 1];
      UnfitNeverSettles(w, most, c);
      UnfitNeverRuns(w, most, c);
      StaysEntering(w, After(w, most), c, m);
    }
  }

  // ------------------------------------------------------------------- one call alone

  predicate Lone(w: Workload) {
    Nested(w) && |w.calls| == 1
  }

  predicate Uninterrupted(moves: seq<Move>) {
    forall i | 0 <= i < |moves| :: !moves[i].Stop?
  }

  lemma {:induction false} OccurrencesGrow(locks: seq<Lock>, k: nat, l: Lock)
    requires k <= |locks|
    ensures Occurrences(locks[..k], l) <= Occurrences(locks, l)
    decreases |locks|
  {
    if k == |locks| {
      assert locks[..k] == locks;
    } else {
      OccurrencesGrow(locks[..|locks| - 1], k, l);
      assert locks[..|locks| - 1][..k] == locks[..k];
    }
  }

  lemma LoneHolders(w: Workload, s: State, l: Lock)
    requires Lone(w) && Shaped(w, s)
    ensures Holders(w, s, l) == HeldBy(w, s, 0, l)
  {
    var xs := Helds(w, s, l);
    assert xs == [xs[0]] && Sum(xs[..0]) == 0;
  }

  /** A lone call that fits can always go on. */
  lemma LoneStep(w: Workload, s: State) returns (m: Move)
    requires Lone(w) && Shaped(w, s) && Fits(w, 0) && !Done(s, 0)
    ensures !m.Stop? && Enabled(w, s, m)
  {
    var locks, held := LocksOf(w, 0), s[0].held;
    if s[0].Leaving? {
      m := Release(0);
    } else if held == |locks| {
      m := Settle(0);
    } else {
      m := Enter(0);
      var l := locks[held];
      LoneHolders(w, s, l);
      OneMoreHeld(locks, held, l);
      OccurrencesGrow(locks, held + 1, l);
    }
  }

  lemma {:induction false} LoneFinishes(w: Workload, moves: seq<Move>) returns (more: seq<Move>)
    requires Lone(w) && Fits(w, 0) && Uninterrupted(moves)
    ensures Uninterrupted(more) && Done(After(w, more), 0)
    decreases Work(w, After(w, moves))
  {
    if Done(After(w, moves), 0) {
      more := moves;
    } else {
      var m := LoneStep(w, After(w, moves));
      EveryMoveIsProgress(w, After(w, moves), m);
      assert (moves + [m])[..|moves|] == moves;
      more := LoneFinishes(w, moves + [m]);
    }
  }

  /**
   MAIN: a call on its own can finish without interruption exactly when it takes no lock more often than it has permits.
   */
  lemma LoneFinishesIff(w: Workload)
    requires Lone(w)
    ensures (exists moves: seq<Move> :: Uninterrupted(moves) && Done(After(w, moves), 0)) <==> Fits(w, 0)
  {
    if Fits(w, 0) {
      var moves := LoneFinishes(w, []);
    } else if moves: seq<Move> :| Uninterrupted(moves) && Done(After(w, moves), 0) {
      UnfitNeverSettles(w, moves, 0);
    }
  }
}
