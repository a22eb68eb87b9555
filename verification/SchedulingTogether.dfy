/**
 What calls wait for, exactly, and which of them can run at once: not only that limits are kept, but that nothing
 else is held back (src/ToolScheduling.ts; src/ToolExecution.ts:929-985).
 */
module SchedulingTogether {
  import opened Base
  import opened Scheduling
  import opened SchedulingFit
  import opened SchedulingLiveness
  import opened Sums

  // ------------------------------------------------------------- which locks a call takes

  lemma {:induction false} EachComesFrom(list: seq<Host>, r: Request, l: Lock) returns (i: nat)
    requires l in EachLocks(list, r)
    ensures i < |list| && l in HostLocks(list[i], r)
    decreases |list|
  {
    if l in HostLocks(list[0], r) {
      i := 0;
    } else {
      i := EachComesFrom(list[1..], r, l);
      i := i + 1;
    }
  }

  /** MAIN: of the host's locks a call takes those of its keys and of its ceilings, wherever in the host they are. */
  lemma {:induction false} HostLocksIff(host: Host, r: Request, l: Lock)
    ensures l in HostLocks(host, r) <==>
              (l.Key? && Serializes(host, l.id, r, l.key)) || (l.Permits? && Caps(host, l.id, l.permits))
    decreases host
  {
    if l.Key? && Serializes(host, l.id, r, l.key) { KeyIsTaken(host, l.id, r, l.key); }
    if l.Permits? && Caps(host, l.id, l.permits) { PermitIsTaken(host, l.id, l.permits, r); }
    if host.All? && l in HostLocks(host, r) {
      var i := EachComesFrom(host.list, r, l);
      HostLocksIff(host.list[i], r, l);
    }
  }

  /** The limit a name has under `PerTool`: its own, if it is given one or none, and the default otherwise. */
  predicate LimitIs(limits: map<string, Option<nat>>, name: string, defaultLimit: Option<nat>, n: nat) {
    (name in limits && limits[name] == Some(n)) || (name !in limits && defaultLimit == Some(n))
  }

  /** MAIN: within its batch a call waits for its strategy's slot and ceiling, and under `Parallel` for nothing. */
  lemma BatchLocksIff(s: Strategy, depth: nat, batch: nat, name: string, l: Lock)
    ensures l in StrategyLocks(s, depth, batch, name) <==>
              match s
              case Sequential => l == Slot(depth, batch, "", 1)
              case Parallel => false
              case Concurrency(limit) => l == Slot(depth, batch, "", limit)
              case PerTool(limits, defaultLimit, total) =>
                || (exists n :: LimitIs(limits, name, defaultLimit, n) && l == Slot(depth, batch, name, n))
                || (exists n :: total == Some(n) && l == Ceiling(depth, batch, n))
    ensures Occurrences(StrategyLocks(s, depth, batch, name), l) <= 1
  {
    if s.PerTool? {
      var limit := LimitFor(s.limits, name, s.defaultLimit);
      if limit.Some? { assert LimitIs(s.limits, name, s.defaultLimit, limit.value); }
    }
    var locks := StrategyLocks(s, depth, batch, name);
    if |locks| == 2 {
      assert locks[..1] == [locks[0]] && locks[0] != locks[1];
      OneOccurs(locks[0], l);
    } else if |locks| == 1 {
      OneOccurs(locks[0], l);
      assert locks == [locks[0]];
    }
  }

  lemma OneOccurs(lock: Lock, l: Lock)
    ensures Occurrences([lock], l) == if lock == l then 1 else 0
  {
    assert [lock][..0] == [];
  }

  // ------------------------------------------------------------- which calls run at once

  /** What the chosen calls take of a lock, together. */
  function Takings(w: Workload, chosen: seq<bool>, l: Lock): (xs: seq<nat>)
    requires Nested(w) && |chosen| == |w.calls|
    ensures |xs| == |chosen|
    ensures forall c | 0 <= c < |xs| :: xs[c] == if chosen[c] then Occurrences(LocksOf(w, c), l) else 0
  {
    seq(|chosen|, c requires 0 <= c < |chosen| => if chosen[c] then Occurrences(LocksOf(w, c), l) else 0)
  }

  /** No lock is needed by the chosen calls, all together, more often than it has permits. */
  ghost predicate FitTogether(w: Workload, chosen: seq<bool>)
    requires Nested(w) && |chosen| == |w.calls|
  {
    forall l :: Sum(Takings(w, chosen, l)) <= Capacity(l)
  }

  predicate RunTogether(w: Workload, chosen: seq<bool>, s: State)
    requires Shaped(w, s) && |chosen| == |w.calls|
  {
    forall c | 0 <= c < |s| && chosen[c] :: Running(w, s, c)
  }

  /** With a nested call its container is chosen, within which alone it can run. */
  predicate WithContainers(w: Workload, chosen: seq<bool>) {
    && Nested(w) && |chosen| == |w.calls|
    && forall c | 0 <= c < |chosen| && chosen[c] && w.calls[c].parent.Some? :: chosen[w.calls[c].parent.value]
  }

  /** Only chosen calls have been let in, and none has settled. */
  predicate OnlyChosen(w: Workload, chosen: seq<bool>, s: State)
    requires Shaped(w, s) && |chosen| == |w.calls|
  {
    forall c | 0 <= c < |s| :: s[c].Entering? && (!chosen[c] ==> s[c].held == 0)
  }

  lemma RunnersTake(w: Workload, moves: seq<Move>, chosen: seq<bool>, l: Lock)
    requires Nested(w) && |chosen| == |w.calls| && RunTogether(w, chosen, After(w, moves))
    ensures Sum(Takings(w, chosen, l)) <= Capacity(l)
  {
    var s := After(w, moves);
    forall c | 0 <= c < |s| ensures Takings(w, chosen, l)[c] <= Helds(w, s, l)[c] {
      if chosen[c] { RunnerHoldsAll(w, s, c, l); }
    }
    SumMonotone(Takings(w, chosen, l), Helds(w, s, l));
    CapacityIsKept(w, moves, l);
  }

  lemma HeldWithinTakings(w: Workload, chosen: seq<bool>, s: State, l: Lock)
    requires Shaped(w, s) && |chosen| == |w.calls| && OnlyChosen(w, chosen, s)
    ensures Holders(w, s, l) <= Sum(Takings(w, chosen, l))
  {
    forall c | 0 <= c < |s| ensures Helds(w, s, l)[c] <= Takings(w, chosen, l)[c] {
      if chosen[c] { OccurrencesGrow(LocksOf(w, c), s[c].held, l); } else { assert LocksOf(w, c)[..0] == []; }
    }
    SumMonotone(Helds(w, s, l), Takings(w, chosen, l));
  }

  /** One lock more held by a call, and nothing else changed. */
  predicate OneMoreEntered(w: Workload, s: State, c: nat, t: State) {
    Shaped(w, s) && c < |s| && s[c].held < |LocksOf(w, c)| && t == s[c := Entering(s[c].held + 1)]
  }

  lemma EnteredHolds(w: Workload, s: State, c: nat, t: State, l: Lock)
    requires OneMoreEntered(w, s, c, t) && l == LocksOf(w, c)[s[c].held]
    ensures Shaped(w, t) && Holders(w, t, l) == Holders(w, s, l) + 1
  {
    OthersHold(w, s, t, c, l);
    OneMoreHeld(LocksOf(w, c), s[c].held, l);
  }

  lemma StillOnlyChosen(w: Workload, chosen: seq<bool>, s: State, c: nat, t: State)
    requires OneMoreEntered(w, s, c, t) && |chosen| == |w.calls| && OnlyChosen(w, chosen, s) && chosen[c]
    ensures Shaped(w, t) && OnlyChosen(w, chosen, t)
  {
  }

  /** A chosen call's next lock has a permit to give. */
  lemma NextLockIsFree(w: Workload, chosen: seq<bool>, s: State, c: nat, t: State, l: Lock)
    requires OneMoreEntered(w, s, c, t) && l == LocksOf(w, c)[s[c].held]
    requires |chosen| == |w.calls| && OnlyChosen(w, chosen, s) && FitTogether(w, chosen) && chosen[c]
    ensures Holders(w, s, l) < Capacity(l) && OnlyChosen(w, chosen, t)
  {
    StillOnlyChosen(w, chosen, s, c, t);
    EnteredHolds(w, s, c, t, l);
    HeldWithinTakings(w, chosen, t, l);
  }

  /** A chosen call that is not running yet can take its next lock, once those before it run. */
  lemma NextLock(w: Workload, chosen: seq<bool>, s: State, c: nat)
    requires Shaped(w, s) && WithContainers(w, chosen) && OnlyChosen(w, chosen, s) && FitTogether(w, chosen)
    requires c < |s| && chosen[c] && !Running(w, s, c) && forall d | 0 <= d < c && chosen[d] :: Running(w, s, d)
    ensures Enabled(w, s, Enter(c)) && OnlyChosen(w, chosen, Step(w, s, Enter(c)))
  {
    NextLockIsFree(w, chosen, s, c, s[c := Entering(s[c].held + 1)], LocksOf(w, c)[s[c].held]);
    if w.calls[c].parent.Some? { assert Running(w, s, w.calls[c].parent.value); }
  }

  lemma FirstWaiting(w: Workload, chosen: seq<bool>, s: State) returns (c: nat)
    requires Shaped(w, s) && |chosen| == |w.calls| && !RunTogether(w, chosen, s)
    ensures c < |s| && chosen[c] && !Running(w, s, c) && forall d | 0 <= d < c && chosen[d] :: Running(w, s, d)
  {
    c := 0;
    while !(chosen[c] && !Running(w, s, c))
      invariant c < |s| && forall d | 0 <= d < c && chosen[d] :: Running(w, s, d)
      decreases |s| - c
    {
      assert c < |s| - 1;
      c := c + 1;
    }
  }

  lemma LetOneIn(w: Workload, moves: seq<Move>, chosen: seq<bool>) returns (m: Move)
    requires WithContainers(w, chosen) && FitTogether(w, chosen)
    requires OnlyChosen(w, chosen, After(w, moves)) && !RunTogether(w, chosen, After(w, moves))
    ensures !m.Stop? && OnlyChosen(w, chosen, After(w, moves + [m]))
    ensures Work(w, After(w, moves + [m])) < Work(w, After(w, moves))
  {
    var s := After(w, moves);
    var c := FirstWaiting(w, chosen, s);
    m := Enter(c);
    NextLock(w, chosen, s, c);
    EveryMoveIsProgress(w, s, m);
    assert (moves + [m])[..|moves|] == moves;
  }

  lemma {:induction false} LetIn(w: Workload, moves: seq<Move>, chosen: seq<bool>) returns (more: seq<Move>)
    requires WithContainers(w, chosen) && FitTogether(w, chosen) && Uninterrupted(moves)
    requires OnlyChosen(w, chosen, After(w, moves))
    ensures Uninterrupted(more) && RunTogether(w, chosen, After(w, more))
    decreases Work(w, After(w, moves))
  {
    if RunTogether(w, chosen, After(w, moves)) {
      more := moves;
    } else {
      var m := LetOneIn(w, moves, chosen);
      more := LetIn(w, moves + [m], chosen);
    }
  }

  /**
   MAIN: any calls, containers and the calls nested in them included, can all run at once, nobody being interrupted,
   exactly when of every lock they need together no more permits than it has. What no limit holds back is not held back.
   */
  lemma TogetherIff(w: Workload, chosen: seq<bool>)
    requires WithContainers(w, chosen)
    ensures (exists moves: seq<Move> :: Uninterrupted(moves) && RunTogether(w, chosen, After(w, moves))) <==>
              FitTogether(w, chosen)
  {
    if FitTogether(w, chosen) {
      var moves := LetIn(w, [], chosen);
    } else if moves: seq<Move> :| Uninterrupted(moves) && RunTogether(w, chosen, After(w, moves)) {
      forall l ensures Sum(Takings(w, chosen, l)) <= Capacity(l) { RunnersTake(w, moves, chosen, l); }
    }
  }

  /** With no host scheduling, any number of a response's calls under `Parallel` can run at once. */
  lemma ParallelIsUnbounded(w: Workload, chosen: seq<bool>)
    requires WithContainers(w, chosen) && w.host.Unconstrained?
    requires forall c | 0 <= c < |chosen| && chosen[c] :: w.calls[c].strategy.Parallel?
    ensures exists moves: seq<Move> :: Uninterrupted(moves) && RunTogether(w, chosen, After(w, moves))
  {
    forall l ensures Sum(Takings(w, chosen, l)) <= Capacity(l) {
      forall c | 0 <= c < |chosen| ensures Takings(w, chosen, l)[c] == 0 {
        if chosen[c] { assert LocksOf(w, c) == []; }
      }
      SumZero(Takings(w, chosen, l));
    }
    TogetherIff(w, chosen);
  }
}
