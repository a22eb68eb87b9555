/** That waiting ends: some call can always step, every step is progress, and so all calls finish. */
module SchedulingLiveness {
  import opened Base
  import opened Scheduling
  import opened Sums

  // ------------------------------------------------------------ one order of locks

  /** The identities of a host scheduling's constraints, in the order a call meets them. */
  function Leaves(host: Host): seq<nat>
    decreases host, 0
  {
    match host
    case Unconstrained => []
    case Serialize(id, _) => [id]
    case MaxConcurrent(id, _) => [id]
    case All(list) => EachLeaves(list)
  }

  function EachLeaves(list: seq<Host>): seq<nat>
    decreases list, 1
  {
    if list == [] then [] else Leaves(list[0]) + EachLeaves(list[1..])
  }

  /** No scheduling value is combined with itself. */
  predicate Distinct(ids: seq<nat>) {
    forall i, j | 0 <= i < j < |ids| :: ids[i] != ids[j]
  }

  predicate OfHost(l: Lock) {
    l.Key? || l.Permits?
  }

  function IndexOf(ids: seq<nat>, id: nat): (i: nat)
    requires id in ids
    ensures i < |ids| && ids[i] == id
  {
    if ids[0] == id then 0 else 1 + IndexOf(ids[1..], id)
  }

  /** The host locks of a call, by the places of their constraints: each after the one before. */
  predicate Ordered(locks: seq<Lock>, ids: seq<nat>) {
    && (forall i | 0 <= i < |locks| :: OfHost(locks[i]) && locks[i].id in ids)
    && (forall i, j | 0 <= i < j < |locks| :: IndexOf(ids, locks[i].id) < IndexOf(ids, locks[j].id))
  }

  lemma {:induction false} IndexIsUnique(ids: seq<nat>, id: nat, i: nat)
    requires Distinct(ids) && i < |ids| && ids[i] == id
    ensures IndexOf(ids, id) == i
  {
  }

  lemma OrderedAppends(xs: seq<Lock>, us: seq<nat>, ys: seq<Lock>, vs: seq<nat>)
    requires Ordered(xs, us) && Ordered(ys, vs) && Distinct(us + vs)
    ensures Ordered(xs + ys, us + vs)
  {
    var ids := us + vs;
    forall i | 0 <= i < |xs + ys|
      ensures OfHost((xs + ys)[i]) && (xs + ys)[i].id in ids
      ensures IndexOf(ids, (xs + ys)[i].id)
           == if i < |xs| then IndexOf(us, xs[i].id) else |us| + IndexOf(vs, ys[i - |xs|].id)
    {
      if i < |xs| {
        IndexIsUnique(ids, xs[i].id, IndexOf(us, xs[i].id));
      } else {
        var id := ys[i - |xs|].id;
        assert ids[|us| + IndexOf(vs, id)] == id;
        IndexIsUnique(ids, id, |us| + IndexOf(vs, id));
      }
    }
  }

  lemma DistinctParts(us: seq<nat>, vs: seq<nat>)
    requires Distinct(us + vs)
    ensures Distinct(us) && Distinct(vs)
  {
    forall i, j | 0 <= i < j < |us| ensures us[i] != us[j] {
      assert (us + vs)[i] == us[i] && (us + vs)[j] == us[j];
    }
    forall i, j | 0 <= i < j < |vs| ensures vs[i] != vs[j] {
      assert (us + vs)[|us| + i] == vs[i] && (us + vs)[|us| + j] == vs[j];
    }
  }

  lemma {:induction false} HostIsOrdered(host: Host, r: Request)
    requires Distinct(Leaves(host))
    ensures Ordered(HostLocks(host, r), Leaves(host))
    decreases host, 0
  {
    match host {
      case All(list) => EachIsOrdered(list, r);
      case _ =>
    }
  }

  lemma {:induction false} EachIsOrdered(list: seq<Host>, r: Request)
    requires Distinct(EachLeaves(list))
    ensures Ordered(EachLocks(list, r), EachLeaves(list))
    decreases list, 1
  {
    if list != [] {
      var us, vs := Leaves(list[0]), EachLeaves(list[1..]);
      DistinctParts(us, vs);
      HostIsOrdered(list[0], r);
      EachIsOrdered(list[1..], r);
      OrderedAppends(HostLocks(list[0], r), us, EachLocks(list[1..], r), vs);
    }
  }

  /** The one order: by depth, slot before ceiling, and every host lock after every local one. */
  function Rank(w: Workload, l: Lock): nat {
    match l
    case Slot(depth, _, _, _) => 2 * depth
    case Ceiling(depth, _, _) => 2 * depth + 1
    case Key(id, _) => 2 * |w.calls| + (if id in Leaves(w.host) then IndexOf(Leaves(w.host), id) else 0)
    case Permits(id, _) => 2 * |w.calls| + (if id in Leaves(w.host) then IndexOf(Leaves(w.host), id) else 0)
  }

  lemma LocalLocks(w: Workload, c: nat)
    requires Nested(w) && c < |w.calls|
    ensures var call := w.calls[c];
            var locks := StrategyLocks(call.strategy, Depth(w, c), call.batch, call.request.name);
            && (forall i | 0 <= i < |locks| :: 2 * Depth(w, c) <= Rank(w, locks[i]) <= 2 * Depth(w, c) + 1)
            && (forall i, j | 0 <= i < j < |locks| :: Rank(w, locks[i]) < Rank(w, locks[j]))
  {
  }

  /** MAIN: every call takes its locks in one and the same strictly increasing order. */
  lemma LocksAreOrdered(w: Workload, c: nat)
    requires Nested(w) && c < |w.calls| && Distinct(Leaves(w.host))
    ensures var locks := LocksOf(w, c);
            && (forall i, j | 0 <= i < j < |locks| :: Rank(w, locks[i]) < Rank(w, locks[j]))
            && (forall i | 0 <= i < |locks| :: 2 * Depth(w, c) <= Rank(w, locks[i]) <= 2 * |w.calls| + |Leaves(w.host)|)
            && (w.calls[c].container ==> forall i | 0 <= i < |locks| :: Rank(w, locks[i]) <= 2 * Depth(w, c) + 1)
  {
    LocalLocks(w, c);
    if !w.calls[c].container {
      var host := HostLocks(w.host, w.calls[c].request);
      HostIsOrdered(w.host, w.calls[c].request);
      HostRanks(w, host);
      var local := StrategyLocks(w.calls[c].strategy, Depth(w, c), w.calls[c].batch, w.calls[c].request.name);
      RanksAppend(w, local, host, 2 * Depth(w, c), 2 * |w.calls|, 2 * |w.calls| + |Leaves(w.host)|);
    }
  }

  lemma HostRanks(w: Workload, host: seq<Lock>)
    requires Ordered(host, Leaves(w.host))
    ensures forall i | 0 <= i < |host| :: 2 * |w.calls| <= Rank(w, host[i]) <= 2 * |w.calls| + |Leaves(w.host)|
    ensures forall i, j | 0 <= i < j < |host| :: Rank(w, host[i]) < Rank(w, host[j])
  {
  }

  lemma RanksAppend(w: Workload, local: seq<Lock>, host: seq<Lock>, low: nat, mid: nat, high: nat)
    requires forall i, j | 0 <= i < j < |local| :: Rank(w, local[i]) < Rank(w, local[j])
    requires forall i, j | 0 <= i < j < |host| :: Rank(w, host[i]) < Rank(w, host[j])
    requires forall i | 0 <= i < |local| :: low <= Rank(w, local[i]) < mid
    requires low <= mid <= high && forall i | 0 <= i < |host| :: mid <= Rank(w, host[i]) <= high
    ensures var locks := local + host;
            && (forall i, j | 0 <= i < j < |locks| :: Rank(w, locks[i]) < Rank(w, locks[j]))
            && (forall i | 0 <= i < |locks| :: low <= Rank(w, locks[i]) <= high)
  {
    var locks := local + host;
    forall i | 0 <= i < |locks| ensures low <= Rank(w, locks[i]) <= high && (i < |local| <==> Rank(w, locks[i]) < mid) {
      assert locks[i] == if i < |local| then local[i] else host[i - |local|];
    }
    forall i, j | 0 <= i < j < |locks| ensures Rank(w, locks[i]) < Rank(w, locks[j]) {
      if j < |local| { assert locks[i] == local[i] && locks[j] == local[j]; }
      else if i >= |local| { assert locks[i] == host[i - |local|] && locks[j] == host[j - |local|]; }
    }
  }

  // ---------------------------------------------------------- what every run keeps

  /** Locks are held only by calls that were made, and a container leaves after its nested calls. */
  predicate Orderly(w: Workload, s: State) {
    && Shaped(w, s)
    && (forall c | 0 <= c < |s| && s[c].Entering? && s[c].held > 0 :: Started(w, s, c))
    && (forall c | 0 <= c < |s| && s[c].Leaving? :: ChildrenDone(w, s, c))
  }

  lemma StepIsOrderly(w: Workload, s: State, m: Move)
    requires Orderly(w, s)
    ensures Orderly(w, Step(w, s, m))
  {
    if Enabled(w, s, m) {
      var t := Step(w, s, m);
      forall c | 0 <= c < |t| && t[c].Entering? && t[c].held > 0 ensures Started(w, t, c) { StaysStarted(w, s, m, c); }
      forall c | 0 <= c < |t| && t[c].Leaving? ensures ChildrenDone(w, t, c) { StaysAlone(w, s, m, c); }
    }
  }

  lemma StaysStarted(w: Workload, s: State, m: Move, c: nat)
    requires Orderly(w, s) && Enabled(w, s, m) && c < |s|
    requires var t := Step(w, s, m); t[c].Entering? && t[c].held > 0
    ensures Started(w, Step(w, s, m), c)
  {
    assert Started(w, s, c);
    if w.calls[c].parent.Some? {
      var p := w.calls[c].parent.value;
      assert Running(w, s, p) && !Done(s, c);
    }
  }

  lemma StaysAlone(w: Workload, s: State, m: Move, c: nat)
    requires Orderly(w, s) && Enabled(w, s, m) && c < |s| && Step(w, s, m)[c].Leaving?
    ensures ChildrenDone(w, Step(w, s, m), c)
  {
    assert ChildrenDone(w, s, c);
    assert w.calls[m.call].parent == Some(c) ==> Done(s, m.call);
  }

  lemma {:induction false} AlwaysOrderly(w: Workload, moves: seq<Move>)
    requires Nested(w)
    ensures Orderly(w, After(w, moves))
    decreases |moves|
  {
    if moves != [] {
      AlwaysOrderly(w, moves[..|moves| - 1]);
      StepIsOrderly(w, After(w, moves[..|moves| - 1]), moves[|moves| - 1]);
    }
  }

  // --------------------------------------------------------------- no deadlock

  /** Every limit is positive, as the constructors demand. */
  predicate Positive(limit: Option<nat>) {
    limit.Some? ==> limit.value >= 1
  }

  predicate ValidStrategy(s: Strategy) {
    match s
    case Concurrency(limit) => limit >= 1
    case PerTool(limits, defaultLimit, total) =>
      Positive(defaultLimit) && Positive(total) && forall name | name in limits :: Positive(limits[name])
    case _ => true
  }

  predicate ValidHost(host: Host)
    decreases host
  {
    match host
    case MaxConcurrent(_, max) => max >= 1
    case All(list) => forall i | 0 <= i < |list| :: ValidHost(list[i])
    case _ => true
  }

  /** What the library's own documentation asks: distinct schedulings, and calls nested only in containers. */
  predicate WellFormed(w: Workload) {
    && Nested(w) && Distinct(Leaves(w.host)) && ValidHost(w.host)
    && (forall c | 0 <= c < |w.calls| :: ValidStrategy(w.calls[c].strategy))
    && (forall c | 0 <= c < |w.calls| && w.calls[c].parent.Some? :: w.calls[w.calls[c].parent.value].container)
  }

  lemma {:induction false} HostHasCapacity(host: Host, r: Request)
    requires ValidHost(host)
    ensures forall i | 0 <= i < |HostLocks(host, r)| :: Capacity(HostLocks(host, r)[i]) >= 1
    decreases host, 0
  {
    match host {
      case All(list) => EachHasCapacity(list, r);
      case _ =>
    }
  }

  lemma {:induction false} EachHasCapacity(list: seq<Host>, r: Request)
    requires forall i | 0 <= i < |list| :: ValidHost(list[i])
    ensures forall i | 0 <= i < |EachLocks(list, r)| :: Capacity(EachLocks(list, r)[i]) >= 1
    decreases list, 1
  {
    if list != [] {
      HostHasCapacity(list[0], r);
      EachHasCapacity(list[1..], r);
    }
  }

  lemma LockHasCapacity(w: Workload, c: nat, i: nat)
    requires WellFormed(w) && c < |w.calls| && i < |LocksOf(w, c)|
    ensures Capacity(LocksOf(w, c)[i]) >= 1
  {
    HostHasCapacity(w.host, w.calls[c].request);
    assert ValidStrategy(w.calls[c].strategy);
  }

  /** No call can step, interruptions apart. */
  ghost predicate Stuck(w: Workload, s: State)
    requires Shaped(w, s)
  {
    forall m: Move | !m.Stop? :: !Enabled(w, s, m)
  }

  predicate Waits(w: Workload, s: State, c: nat)
    requires Shaped(w, s)
  {
    c < |s| && s[c].Entering? && s[c].held < |LocksOf(w, c)| && Started(w, s, c)
  }

  function Awaited(w: Workload, s: State, c: nat): Lock
    requires Shaped(w, s) && Waits(w, s, c)
  {
    LocksOf(w, c)[s[c].held]
  }

  lemma StuckNotLeaving(w: Workload, s: State, c: nat)
    requires Shaped(w, s) && Stuck(w, s) && c < |s| && !Done(s, c)
    ensures s[c].Entering?
  {
    if s[c].Leaving? { assert Enabled(w, s, Release(c)); }
  }

  /** A stuck call that runs is a container with a nested call undone. */
  lemma StuckRunner(w: Workload, s: State, c: nat) returns (d: nat)
    requires Shaped(w, s) && Stuck(w, s) && c < |s| && Running(w, s, c) && Started(w, s, c)
    ensures d < |s| && w.calls[d].parent == Some(c) && !Done(s, d) && Started(w, s, d)
  {
    assert !Enabled(w, s, Settle(c));
    d :| 0 <= d < |s| && w.calls[d].parent == Some(c) && !Done(s, d);
  }

  /** Below any stuck call there is one that waits, for a lock past all that its containers hold. */
  lemma {:induction false} FindWaiting(w: Workload, s: State, c: nat) returns (e: nat)
    requires WellFormed(w) && Orderly(w, s) && Stuck(w, s) && c < |s| && !Done(s, c) && Started(w, s, c)
    ensures Waits(w, s, e) && Rank(w, Awaited(w, s, e)) >= 2 * Depth(w, c)
    ensures Running(w, s, c) ==> Rank(w, Awaited(w, s, e)) >= 2 * Depth(w, c) + 2
    decreases |s| - c
  {
    StuckNotLeaving(w, s, c);
    if Running(w, s, c) {
      var d := StuckRunner(w, s, c);
      e := FindWaiting(w, s, d);
    } else {
      e := c;
      LocksAreOrdered(w, c);
    }
  }

  lemma FindHolder(w: Workload, s: State, l: Lock) returns (d: nat, j: nat)
    requires Shaped(w, s) && Holders(w, s, l) > 0
    ensures d < |s| && j < s[d].held && LocksOf(w, d)[j] == l
  {
    d := SumPositive(Helds(w, s, l));
    var locks := LocksOf(w, d)[..s[d].held];
    InOccurs(locks, l);
    j :| 0 <= j < |locks| && locks[j] == l;
  }

  /** Whoever holds a lock, stuck, waits for a later one, or has below it a call that does. */
  lemma LaterWait(w: Workload, s: State, d: nat, j: nat) returns (next: nat)
    requires WellFormed(w) && Orderly(w, s) && Stuck(w, s) && d < |s| && !Done(s, d) && j < s[d].held
    ensures Waits(w, s, next) && Rank(w, LocksOf(w, d)[j]) < Rank(w, Awaited(w, s, next))
  {
    StuckNotLeaving(w, s, d);
    LocksAreOrdered(w, d);
    if Running(w, s, d) {
      var nested := StuckRunner(w, s, d);
      assert w.calls[d].container;
      next := FindWaiting(w, s, d);
    } else {
      next := d;
    }
  }

  lemma AwaitedRank(w: Workload, s: State, e: nat)
    requires WellFormed(w) && Shaped(w, s) && Waits(w, s, e)
    ensures Rank(w, Awaited(w, s, e)) <= 2 * |w.calls| + |Leaves(w.host)|
  {
    LocksAreOrdered(w, e);
  }

  /** So waiting for a lock leads to waiting for a later one, and there is no end to it. */
  lemma {:induction false} Climb(w: Workload, s: State, e: nat)
    requires WellFormed(w) && Orderly(w, s) && Stuck(w, s) && Waits(w, s, e)
    ensures false
    decreases 2 * |w.calls| + |Leaves(w.host)| - Rank(w, Awaited(w, s, e))
  {
    LockHasCapacity(w, e, s[e].held);
    assert !Enabled(w, s, Enter(e));
    var d, j := FindHolder(w, s, Awaited(w, s, e));
    var next := LaterWait(w, s, d, j);
    AwaitedRank(w, s, next);
    Climb(w, s, next);
  }

  /** The outermost call still to be made, or made, that an undone call is part of. */
  lemma {:induction false} FindStarted(w: Workload, s: State, c: nat) returns (p: nat)
    requires Orderly(w, s) && c < |s| && !Done(s, c)
    ensures p < |s| && !Done(s, p) && Started(w, s, p)
  {
    if Started(w, s, c) {
      p := c;
    } else {
      var parent := w.calls[c].parent.value;
      assert s[parent].Leaving? ==> ChildrenDone(w, s, parent);
      p := FindStarted(w, s, parent);
    }
  }

  /**
   MAIN: deadlock freedom. On every schedule of every well-formed workload -- any strategies, any host
   scheduling of distinct constraints, any nesting of containers, and `maxConcurrent(1)` among them -- while
   any call is unfinished, some call can step without being interrupted.
   */
  lemma NeverStuck(w: Workload, moves: seq<Move>, c: nat)
    requires WellFormed(w) && c < |w.calls|
    ensures !Done(After(w, moves), c) ==> exists m: Move :: !m.Stop? && Enabled(w, After(w, moves), m)
  {
    var s := After(w, moves);
    AlwaysOrderly(w, moves);
    if !Done(s, c) && Stuck(w, s) {
      var p := FindStarted(w, s, c);
      var e := FindWaiting(w, s, p);
      Climb(w, s, e);
    }
  }

  // ----------------------------------------------------------------- and no livelock

  /** What a call has still to do. */
  function Left(w: Workload, s: State, c: nat): nat
    requires Shaped(w, s) && c < |s|
  {
    match s[c]
    case Entering(held) => 2 * |LocksOf(w, c)| + 1 - held
    case Leaving(held) => held
  }

  function Lefts(w: Workload, s: State): (xs: seq<nat>)
    requires Shaped(w, s)
    ensures |xs| == |s| && forall c | 0 <= c < |s| :: xs[c] == Left(w, s, c)
  {
    seq(|s|, c requires 0 <= c < |s| => Left(w, s, c))
  }

  function Work(w: Workload, s: State): nat
    requires Shaped(w, s)
  {
    Sum(Lefts(w, s))
  }

  lemma LessLeft(w: Workload, s: State, m: Move)
    requires Shaped(w, s) && Enabled(w, s, m)
    ensures Left(w, Step(w, s, m), m.call) < Left(w, s, m.call)
    ensures forall d | 0 <= d < |s| && d != m.call :: Step(w, s, m)[d] == s[d]
  {
  }

  lemma OneLeaves(w: Workload, s: State, t: State, c: nat)
    requires Shaped(w, s) && Shaped(w, t) && c < |s| && forall d | 0 <= d < |s| && d != c :: t[d] == s[d]
    ensures Lefts(w, t) == Lefts(w, s)[c := Lefts(w, t)[c]]
  {
    forall d | 0 <= d < |s| ensures Lefts(w, t)[d] == Lefts(w, s)[c := Lefts(w, t)[c]][d] {
      assert d != c ==> Left(w, t, d) == Left(w, s, d);
    }
  }

  /** Every move that is enabled, an interruption too, leaves less to do. */
  lemma EveryMoveIsProgress(w: Workload, s: State, m: Move)
    requires Shaped(w, s) && Enabled(w, s, m)
    ensures Work(w, Step(w, s, m)) < Work(w, s)
  {
    LessLeft(w, s, m);
    OneLeaves(w, s, Step(w, s, m), m.call);
    SumUpdate(Lefts(w, s), m.call, Lefts(w, Step(w, s, m))[m.call]);
  }

  predicate AllDone(s: State) {
    forall c | 0 <= c < |s| :: Done(s, c)
  }

  predicate Finished(w: Workload, moves: seq<Move>)
    requires Nested(w)
  {
    AllDone(After(w, moves))
  }

  /** One step of some call's own, wherever a schedule has led. */
  lemma OneStep(w: Workload, moves: seq<Move>) returns (m: Move)
    requires WellFormed(w) && !Finished(w, moves)
    ensures !m.Stop? && Work(w, After(w, moves + [m])) < Work(w, After(w, moves))
  {
    var s := After(w, moves);
    var c :| 0 <= c < |s| && !Done(s, c);
    NeverStuck(w, moves, c);
    m :| !m.Stop? && Enabled(w, s, m);
    EveryMoveIsProgress(w, s, m);
    assert (moves + [m])[..|moves|] == moves;
  }

  lemma Regroup(moves: seq<Move>, m: Move, rest: seq<Move>)
    ensures moves + ([m] + rest) == (moves + [m]) + rest
  {
  }

  /** MAIN: from wherever a schedule has led, all calls finish by steps of their own, no one interrupted. */
  lemma {:induction false} AllFinish(w: Workload, moves: seq<Move>) returns (more: seq<Move>)
    requires WellFormed(w)
    ensures Finished(w, moves + more) && forall i | 0 <= i < |more| :: !more[i].Stop?
    decreases Work(w, After(w, moves))
  {
    more := [];
    if Finished(w, moves) {
      assert moves + more == moves;
    } else {
      var m := OneStep(w, moves);
      var rest := AllFinish(w, moves + [m]);
      more := [m] + rest;
      Regroup(moves, m, rest);
      NoStops(m, rest);
    }
  }

  lemma NoStops(m: Move, rest: seq<Move>)
    requires !m.Stop? && forall i | 0 <= i < |rest| :: !rest[i].Stop?
    ensures forall i | 0 <= i < |[m] + rest| :: !([m] + rest)[i].Stop?
  {
  }

  // ---------------------------------------------------- what the conditions are for

  /** One scheduling value combined with itself: its only call waits for itself. */
  lemma CombinedWithItselfDeadlocks()
    ensures var r := Request("t", 0);
            var w := Workload(All([MaxConcurrent(0, 1), MaxConcurrent(0, 1)]), [Call(r, 0, Parallel, false, None)]);
            Nested(w) && Stuck(w, After(w, [Enter(0)])) && !Done(After(w, [Enter(0)]), 0)
  {
    var r := Request("t", 0);
    var host := [MaxConcurrent(0, 1), MaxConcurrent(0, 1)];
    var w := Workload(All(host), [Call(r, 0, Parallel, false, None)]);
    var l := Permits(0, 1);
    assert host[1..] == [MaxConcurrent(0, 1)] && host[1..][1..] == [];
    assert EachLocks(host[1..], r) == HostLocks(host[1], r) + EachLocks([], r) == [l];
    assert EachLocks(host, r) == HostLocks(host[0], r) + EachLocks(host[1..], r);
    assert LocksOf(w, 0) == [l, l];
    OnePermitTaken(w, l);
  }

  /** A tool with nested calls that is not marked a container keeps the only permit they wait for. */
  lemma UnmarkedContainerDeadlocks()
    ensures var r := Request("t", 0);
            var w := Workload(MaxConcurrent(0, 1),
                [Call(r, 0, Parallel, false, None), Call(r, 1, Parallel, false, Some(0))]);
            Nested(w) && Stuck(w, After(w, [Enter(0)])) && !Done(After(w, [Enter(0)]), 1)
  {
    var r := Request("t", 0);
    var w := Workload(MaxConcurrent(0, 1), [Call(r, 0, Parallel, false, None), Call(r, 1, Parallel, false, Some(0))]);
    var l := Permits(0, 1);
    assert LocksOf(w, 0) == [l] && LocksOf(w, 1) == [l];
    OnePermitTaken(w, l);
    assert w.calls[1].parent == Some(0) && !Done(After(w, [Enter(0)]), 1);
  }

  /** A lone permit goes to the first call to enter. */
  lemma OnePermitTaken(w: Workload, l: Lock)
    requires Nested(w) && w.calls != [] && w.calls[0].parent.None? && LocksOf(w, 0) != [] && LocksOf(w, 0)[0] == l
    requires Capacity(l) == 1
    ensures After(w, [Enter(0)]) == Initially(w)[0 := Entering(1)] && Holders(w, After(w, [Enter(0)]), l) == 1
  {
    var s := Initially(w);
    NobodyHolds(w, l);
    assert [Enter(0)][..0] == [];
    assert After(w, [Enter(0)]) == s[0 := Entering(1)];
    OthersHold(w, s, s[0 := Entering(1)], 0, l);
    OneMoreHeld(LocksOf(w, 0), 0, l);
  }
}
