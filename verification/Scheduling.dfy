/**
 Who waits for what (src/ToolScheduling.ts; src/ToolExecution.ts:129-145, 563-568, 894-904, 929-985): a call takes
 its group's slot, then the response's ceiling, then the host's locks in the order of `all`, and holds what
 it has until it settles. A container takes no host lock; its nested calls do, each for itself.
 */
module Scheduling {
  import opened Base
  import opened Sums

  // ------------------------------------------------------------------- constraints

  /** The part of a call a scheduling decides by. */
  datatype Request = Request(name: string, params: nat)

  /** `id` is the scheduling value's identity: its own permits, or its own map of locks. */
  datatype Host =
    | Unconstrained
    | Serialize(id: nat, keyOf: Request -> Option<string>)
    | MaxConcurrent(id: nat, max: nat)
    | All(list: seq<Host>)

  datatype Strategy =
    | Sequential
    | Parallel
    | Concurrency(limit: nat)
    | PerTool(limits: map<string, Option<nat>>, defaultLimit: Option<nat>, total: Option<nat>)

  /** Local locks belong to one batch, `depth` containers deep; host locks to the process. */
  datatype Lock =
    | Slot(depth: nat, batch: nat, name: string, permits: nat)
    | Ceiling(depth: nat, batch: nat, permits: nat)
    | Key(id: nat, key: string)
    | Permits(id: nat, permits: nat)

  function Capacity(l: Lock): nat {
    match l
    case Slot(_, _, _, n) => n
    case Ceiling(_, _, n) => n
    case Key(_, _) => 1
    case Permits(_, n) => n
  }

  /** The host's locks for a call, outermost first. */
  function HostLocks(host: Host, r: Request): seq<Lock>
    decreases host, 0
  {
    match host
    case Unconstrained => []
    case Serialize(id, keyOf) => (match keyOf(r) case None => [] case Some(key) => [Key(id, key)])
    case MaxConcurrent(id, max) => [Permits(id, max)]
    case All(list) => EachLocks(list, r)
  }

  function EachLocks(list: seq<Host>, r: Request): seq<Lock>
    decreases list, 1
  {
    if list == [] then [] else HostLocks(list[0], r) + EachLocks(list[1..], r)
  }

  function Limited(limit: Option<nat>, lock: nat -> Lock): seq<Lock> {
    if limit.None? then [] else [lock(limit.value)]
  }

  function LimitFor(limits: map<string, Option<nat>>, name: string, defaultLimit: Option<nat>): Option<nat> {
    if name in limits then limits[name] else defaultLimit
  }

  /** `Effect.all`'s concurrency, and under `PerTool` the semaphore inside it. */
  function StrategyLocks(s: Strategy, depth: nat, batch: nat, name: string): seq<Lock> {
    match s
    case Sequential => [Slot(depth, batch, "", 1)]
    case Parallel => []
    case Concurrency(limit) => [Slot(depth, batch, "", limit)]
    case PerTool(limits, defaultLimit, total) =>
      Limited(LimitFor(limits, name, defaultLimit), (n: nat) => Slot(depth, batch, name, n))
      + Limited(total, (n: nat) => Ceiling(depth, batch, n))
  }

  // ------------------------------------------------------------------------- calls

  /** One call of a batch; `parent` is the container call whose work it is part of. */
  datatype Call = Call(request: Request, batch: nat, strategy: Strategy, container: bool, parent: Option<nat>)

  /** Every call made while a host scheduling is in force; a nested call comes after its container. */
  datatype Workload = Workload(host: Host, calls: seq<Call>)

  predicate Nested(w: Workload) {
    forall c | 0 <= c < |w.calls| && w.calls[c].parent.Some? :: w.calls[c].parent.value < c
  }

  function Depth(w: Workload, c: nat): (d: nat)
    requires Nested(w) && c < |w.calls|
    ensures d <= c
  {
    var parent := w.calls[c].parent;
    if parent.None? then 0 else 1 + Depth(w, parent.value)
  }

  /** What a call takes, in the order it takes it. */
  function LocksOf(w: Workload, c: nat): seq<Lock>
    requires Nested(w) && c < |w.calls|
  {
    var call := w.calls[c];
    StrategyLocks(call.strategy, Depth(w, c), call.batch, call.request.name)
    + (if call.container then [] else HostLocks(w.host, call.request))
  }

  // ------------------------------------------------------------------------- steps

  /** A call enters by taking its locks one by one, runs once it has them all, and leaves giving them back. */
  datatype Stage = Entering(held: nat) | Leaving(held: nat)

  /** `Stop` is an interruption, wherever the call is. */
  datatype Move = Enter(call: nat) | Settle(call: nat) | Release(call: nat) | Stop(call: nat)

  type State = seq<Stage>

  predicate Shaped(w: Workload, s: State) {
    Nested(w) && |s| == |w.calls| && forall c | 0 <= c < |s| :: s[c].held <= |LocksOf(w, c)|
  }

  predicate Done(s: State, c: nat)
    requires c < |s|
  {
    s[c] == Leaving(0)
  }

  predicate Running(w: Workload, s: State, c: nat)
    requires Shaped(w, s) && c < |s|
  {
    s[c].Entering? && s[c].held == |LocksOf(w, c)|
  }

  /** A nested call is made by its running container. */
  predicate Started(w: Workload, s: State, c: nat)
    requires Shaped(w, s) && c < |s|
  {
    w.calls[c].parent.None? || Running(w, s, w.calls[c].parent.value)
  }

  /** A container settles, or is stopped, once its nested calls are done. */
  predicate ChildrenDone(w: Workload, s: State, c: nat)
    requires Shaped(w, s)
  {
    forall d | 0 <= d < |s| && w.calls[d].parent == Some(c) :: Done(s, d)
  }

  function Occurrences(locks: seq<Lock>, l: Lock): nat
    decreases |locks|
  {
    if locks == [] then 0
    else Occurrences(locks[..|locks| - 1], l) + (if locks[|locks| - 1] == l then 1 else 0)
  }

  /** How many permits of `l` call `c` holds. */
  function HeldBy(w: Workload, s: State, c: nat, l: Lock): nat
    requires Shaped(w, s) && c < |s|
  {
    Occurrences(LocksOf(w, c)[..s[c].held], l)
  }

  function Helds(w: Workload, s: State, l: Lock): (xs: seq<nat>)
    requires Shaped(w, s)
    ensures |xs| == |s| && forall c | 0 <= c < |s| :: xs[c] == HeldBy(w, s, c, l)
  {
    seq(|s|, c requires 0 <= c < |s| => HeldBy(w, s, c, l))
  }

  /** How many permits of `l` are held. */
  function Holders(w: Workload, s: State, l: Lock): nat
    requires Shaped(w, s)
  {
    Sum(Helds(w, s, l))
  }

  predicate Enabled(w: Workload, s: State, m: Move)
    requires Shaped(w, s)
  {
    && m.call < |s|
    && match m
       case Enter(c) =>
         s[c].Entering? && s[c].held < |LocksOf(w, c)| && Started(w, s, c)
         && Holders(w, s, LocksOf(w, c)[s[c].held]) < Capacity(LocksOf(w, c)[s[c].held])
       case Settle(c) => Running(w, s, c) && Started(w, s, c) && ChildrenDone(w, s, c)
       case Release(c) => s[c].Leaving? && s[c].held > 0
       case Stop(c) => s[c].Entering? && ChildrenDone(w, s, c)
  }

  /** A move that is not enabled changes nothing. */
  function Step(w: Workload, s: State, m: Move): (t: State)
    requires Shaped(w, s)
    ensures Shaped(w, t)
  {
    if !Enabled(w, s, m) then s
    else match m
         case Enter(c) => s[c := Entering(s[c].held + 1)]
         case Settle(c) => s[c := Leaving(s[c].held)]
         case Release(c) => s[c := Leaving(s[c].held - 1)]
         case Stop(c) => s[c := Leaving(s[c].held)]
  }

  function Initially(w: Workload): (s: State)
    requires Nested(w)
    ensures Shaped(w, s)
  {
    seq(|w.calls|, _ => Entering(0))
  }

  function After(w: Workload, moves: seq<Move>): (s: State)
    requires Nested(w)
    ensures Shaped(w, s)
    decreases |moves|
  {
    if moves == [] then Initially(w) else Step(w, After(w, moves[..|moves| - 1]), moves[|moves| - 1])
  }

  // -------------------------------------------------------------- capacity is kept

  lemma OthersHold(w: Workload, s: State, t: State, c: nat, l: Lock)
    requires Shaped(w, s) && Shaped(w, t) && c < |s|
    requires forall d | 0 <= d < |s| && d != c :: t[d].held == s[d].held
    ensures Holders(w, t, l) == Holders(w, s, l) - HeldBy(w, s, c, l) + HeldBy(w, t, c, l)
  {
    var xs, ys := Helds(w, s, l), Helds(w, t, l);
    forall d | 0 <= d < |s| ensures ys[d] == xs[c := HeldBy(w, t, c, l)][d] {
      assert d != c ==> HeldBy(w, t, d, l) == HeldBy(w, s, d, l);
    }
    assert ys == xs[c := HeldBy(w, t, c, l)];
    SumUpdate(xs, c, HeldBy(w, t, c, l));
  }

  lemma OneMoreHeld(locks: seq<Lock>, k: nat, l: Lock)
    requires k < |locks|
    ensures Occurrences(locks[..k + 1], l) == Occurrences(locks[..k], l) + (if locks[k] == l then 1 else 0)
  {
    assert locks[..k + 1][..k] == locks[..k];
  }

  /** Taking a lock that has a permit to give, or giving one back, keeps every lock within its permits. */
  lemma EnterHolders(w: Workload, s: State, c: nat, l: Lock)
    requires Shaped(w, s) && Enabled(w, s, Enter(c)) && Holders(w, s, l) <= Capacity(l)
    ensures Holders(w, Step(w, s, Enter(c)), l) <= Capacity(l)
  {
    OthersHold(w, s, Step(w, s, Enter(c)), c, l);
    OneMoreHeld(LocksOf(w, c), s[c].held, l);
  }

  lemma ReleaseHolders(w: Workload, s: State, c: nat, l: Lock)
    requires Shaped(w, s) && Enabled(w, s, Release(c)) && Holders(w, s, l) <= Capacity(l)
    ensures Holders(w, Step(w, s, Release(c)), l) <= Capacity(l)
  {
    OthersHold(w, s, Step(w, s, Release(c)), c, l);
    OneMoreHeld(LocksOf(w, c), s[c].held - 1, l);
  }

  lemma StepHolders(w: Workload, s: State, m: Move, l: Lock)
    requires Shaped(w, s) && Holders(w, s, l) <= Capacity(l)
    ensures Holders(w, Step(w, s, m), l) <= Capacity(l)
  {
    if Enabled(w, s, m) {
      match m {
        case Enter(c) => EnterHolders(w, s, c, l);
        case Release(c) => ReleaseHolders(w, s, c, l);
        case Settle(c) => OthersHold(w, s, Step(w, s, m), c, l);
        case Stop(c) => OthersHold(w, s, Step(w, s, m), c, l);
      }
    }
  }

  lemma NobodyHolds(w: Workload, l: Lock)
    requires Nested(w)
    ensures Holders(w, Initially(w), l) == 0
  {
    SumZero(Helds(w, Initially(w), l));
  }

  /** MAIN: on every schedule, no lock is ever held by more calls than it has permits. */
  lemma {:induction false} CapacityIsKept(w: Workload, moves: seq<Move>, l: Lock)
    requires Nested(w)
    ensures Holders(w, After(w, moves), l) <= Capacity(l)
    decreases |moves|
  {
    if moves == [] {
      NobodyHolds(w, l);
    } else {
      CapacityIsKept(w, moves[..|moves| - 1], l);
      StepHolders(w, After(w, moves[..|moves| - 1]), moves[|moves| - 1], l);
    }
  }

  // ---------------------------------------------------------- what runs at once

  lemma {:induction false} InOccurs(locks: seq<Lock>, l: Lock)
    ensures l in locks <==> Occurrences(locks, l) > 0
    decreases |locks|
  {
    if locks != [] {
      InOccurs(locks[..|locks| - 1], l);
      assert locks == locks[..|locks| - 1] + [locks[|locks| - 1]];
    }
  }

  /** A running call holds every lock taken for it. */
  lemma RunnerHolds(w: Workload, s: State, c: nat, l: Lock)
    requires Shaped(w, s) && c < |s| && Running(w, s, c) && l in LocksOf(w, c)
    ensures HeldBy(w, s, c, l) >= 1
  {
    var locks := LocksOf(w, c);
    assert locks[..s[c].held] == locks;
    InOccurs(locks, l);
  }

  /** The scheduling with this identity, somewhere in the host's. */
  predicate Serializes(host: Host, id: nat, r: Request, key: string)
    decreases host
  {
    match host
    case Serialize(own, keyOf) => own == id && keyOf(r) == Some(key)
    case All(list) => exists i | 0 <= i < |list| :: Serializes(list[i], id, r, key)
    case _ => false
  }

  predicate Caps(host: Host, id: nat, max: nat)
    decreases host
  {
    match host
    case MaxConcurrent(own, n) => own == id && n == max
    case All(list) => exists i | 0 <= i < |list| :: Caps(list[i], id, max)
    case _ => false
  }

  lemma {:induction false} EachHas(list: seq<Host>, r: Request, i: nat, l: Lock)
    requires i < |list| && l in HostLocks(list[i], r)
    ensures l in EachLocks(list, r)
    decreases |list|
  {
    if i > 0 { EachHas(list[1..], r, i - 1, l); }
  }

  lemma {:induction false} KeyIsTaken(host: Host, id: nat, r: Request, key: string)
    requires Serializes(host, id, r, key)
    ensures Key(id, key) in HostLocks(host, r)
    decreases host
  {
    match host {
      case Serialize(_, _) =>
      case All(list) =>
        var i :| 0 <= i < |list| && Serializes(list[i], id, r, key);
        KeyIsTaken(list[i], id, r, key);
        EachHas(list, r, i, Key(id, key));
    }
  }

  lemma {:induction false} PermitIsTaken(host: Host, id: nat, max: nat, r: Request)
    requires Caps(host, id, max)
    ensures Permits(id, max) in HostLocks(host, r)
    decreases host
  {
    match host {
      case MaxConcurrent(_, _) =>
      case All(list) =>
        var i :| 0 <= i < |list| && Caps(list[i], id, max);
        PermitIsTaken(list[i], id, max, r);
        EachHas(list, r, i, Permits(id, max));
    }
  }

  /** MAIN: two calls that share a key never run at once -- whatever turns, sessions or containers they are of. */
  lemma SameKeyNeverOverlaps(w: Workload, moves: seq<Move>, c: nat, d: nat, id: nat, key: string)
    requires Nested(w) && c < d < |w.calls| && !w.calls[c].container && !w.calls[d].container
    requires Serializes(w.host, id, w.calls[c].request, key) && Serializes(w.host, id, w.calls[d].request, key)
    ensures !(Running(w, After(w, moves), c) && Running(w, After(w, moves), d))
  {
    var s, l := After(w, moves), Key(id, key);
    KeyIsTaken(w.host, id, w.calls[c].request, key);
    KeyIsTaken(w.host, id, w.calls[d].request, key);
    CapacityIsKept(w, moves, l);
    if Running(w, s, c) && Running(w, s, d) {
      RunnerHolds(w, s, c, l);
      RunnerHolds(w, s, d, l);
      SumAtLeastTwo(Helds(w, s, l), c, d);
    }
  }

  /** The calls that do work; those of one response; those of one name in it. */
  datatype Pick = Working | OfBatch(batch: nat) | Named(batch: nat, name: string)

  predicate Picks(pick: Pick, call: Call) {
    match pick
    case Working => !call.container
    case OfBatch(batch) => call.batch == batch
    case Named(batch, name) => call.batch == batch && call.request.name == name
  }

  function Picked(w: Workload, s: State, pick: Pick): seq<nat>
    requires Shaped(w, s)
  {
    seq(|s|, c requires 0 <= c < |s| => if Running(w, s, c) && Picks(pick, w.calls[c]) then 1 else 0)
  }

  /** How many calls run, of those picked. */
  function RunningOf(w: Workload, s: State, pick: Pick): nat
    requires Shaped(w, s)
  {
    Sum(Picked(w, s, pick))
  }

  /** MAIN: of the calls a lock is taken for, no more run at once than it has permits. */
  lemma RunnersAreBounded(w: Workload, moves: seq<Move>, pick: Pick, l: Lock)
    requires Nested(w)
    requires forall c | 0 <= c < |w.calls| && Picks(pick, w.calls[c]) :: l in LocksOf(w, c)
    ensures RunningOf(w, After(w, moves), pick) <= Capacity(l)
  {
    var s := After(w, moves);
    forall c | 0 <= c < |s| ensures Picked(w, s, pick)[c] <= Helds(w, s, l)[c] {
      if Running(w, s, c) && Picks(pick, w.calls[c]) { RunnerHolds(w, s, c, l); }
    }
    SumMonotone(Picked(w, s, pick), Helds(w, s, l));
    CapacityIsKept(w, moves, l);
  }

  /** MAIN: under `maxConcurrent(max)`, anywhere in the host's scheduling, at most `max` calls that do work run. */
  lemma AtMostMaxRun(w: Workload, moves: seq<Move>, id: nat, max: nat)
    requires Nested(w) && Caps(w.host, id, max)
    ensures RunningOf(w, After(w, moves), Working) <= max
  {
    forall c | 0 <= c < |w.calls| && !w.calls[c].container ensures Permits(id, max) in LocksOf(w, c) {
      PermitIsTaken(w.host, id, max, w.calls[c].request);
    }
    RunnersAreBounded(w, moves, Working, Permits(id, max));
  }

  /** The calls of one response: one batch, one strategy, one container if any. */
  predicate IsBatch(w: Workload, batch: nat, strategy: Strategy, depth: nat)
    requires Nested(w)
  {
    forall c | 0 <= c < |w.calls| && w.calls[c].batch == batch ::
      w.calls[c].strategy == strategy && Depth(w, c) == depth
  }

  /**
   MAIN: `perTool` bounds one response: at every moment at most `total` of its calls run, and at most its
   name's limit of each name -- though calls of distinct names are grouped apart, and run concurrently.
   */
  lemma PerToolBounds(w: Workload, moves: seq<Move>, batch: nat, strategy: Strategy, depth: nat, name: string)
    requires Nested(w) && strategy.PerTool? && IsBatch(w, batch, strategy, depth)
    ensures strategy.total.Some? ==>
              RunningOf(w, After(w, moves), OfBatch(batch)) <= strategy.total.value
    ensures LimitFor(strategy.limits, name, strategy.defaultLimit).Some? ==>
              RunningOf(w, After(w, moves), Named(batch, name))
                <= LimitFor(strategy.limits, name, strategy.defaultLimit).value
  {
    if strategy.total.Some? {
      RunnersAreBounded(w, moves, OfBatch(batch), Ceiling(depth, batch, strategy.total.value));
    }
    var limit := LimitFor(strategy.limits, name, strategy.defaultLimit);
    if limit.Some? {
      RunnersAreBounded(w, moves, Named(batch, name), Slot(depth, batch, name, limit.value));
    }
  }

  // ------------------------------------------------------------------- the lock map

  /** `serialize`'s locks: one for each key, made when first asked for and kept. */
  class KeyLocks {
    var locks: map<string, nat>
    var made: nat

    ghost predicate Valid()
      reads this
    {
      && (forall key | key in locks :: locks[key] < made)
      && (forall key, other | key in locks && other in locks && key != other :: locks[key] != locks[other])
    }

    constructor ()
      ensures Valid() && locks == map[]
    {
      locks, made := map[], 0;
    }

    /** Calls share a lock exactly when they share a key. */
    method LockFor(key: string) returns (lock: nat)
      requires Valid()
      modifies this
      ensures Valid() && key in locks && locks[key] == lock
      ensures locks == old(locks)[key := lock] && (key in old(locks) ==> locks == old(locks))
      ensures forall other | other in locks :: locks[other] == lock <==> other == key
    {
      if key in locks { return locks[key]; }
      lock := made;
      locks, made := locks[key := lock], made + 1;
    }
  }
}
