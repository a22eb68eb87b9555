/** What every step of the kernel keeps, whichever fibre or caller takes it. */
module KernelInvariant {
  import opened Base
  import opened Kernel
  import opened KernelFiber
  import AgentLoop
  import ToolBatch

  // ------------------------------------------------------------ the invariant

  /** At most one submission is live, and it is the session's active one. */
  ghost predicate Shape(s: State) {
    var st := s.shared.state;
    && (forall a | a in s.fibers :: 1 <= a <= st.count && (Live(s.fibers[a].pc) ==> st.active == Some(a)))
    && (st.active.Some? ==> st.active.value == st.count && st.count in s.fibers && Live(s.fibers[st.count].pc)
                            && !st.status.Idle?)
    && (st.status.Running? ==> st.active.Some?)
    && (forall i | 0 <= i < |s.shared.history| :: s.shared.history[i].Seeded? || SubOf(s.shared.history[i]) in s.fibers)
  }

  ghost predicate GateOk(s: State) {
    && (forall a | a in s.fibers :: GateHeld(s.shared, a, s.fibers[a]))
    && (s.shared.gate.BySub? ==> s.shared.gate.sub in s.fibers)
    && (forall c | c in s.callers :: CallerHoldsGate(s.callers[c]) <==> s.shared.gate == ByCaller(c))
    && (s.shared.gate.ByCaller? ==> s.shared.gate.caller in s.callers)
  }

  /** Whose inputs the queues hold: the active submission's, except while a released one is still draining. */
  function QueueOwner(s: State): Option<nat> {
    if s.shared.gate.BySub? && s.shared.gate.sub in s.fibers && Dropping(s.fibers[s.shared.gate.sub].pc)
    then Some(s.shared.gate.sub) else s.shared.state.active
  }

  predicate Mine(s: State, a: nat) {
    QueueOwner(s) == Some(a)
  }

  predicate Emptied(s: State) {
    s.shared.steering == [] && s.shared.followUps == []
  }

  /** No queue without an owner, and a release leaves the queues empty. */
  ghost predicate QueuesOk(s: State) {
    && (QueueOwner(s).None? ==> Emptied(s))
    && (s.shared.gate.BySub? && s.shared.gate.sub in s.fibers ==>
          var f := s.fibers[s.shared.gate.sub];
          && (f.pc == InRelease(DropFollowUps) || f.pc == InRelease(OpenGate) ==> s.shared.steering == [])
          && (f.pc == InRelease(OpenGate) ==> s.shared.followUps == [])
          && (f.exit.completed ==> Emptied(s)))
  }

  function QueueOf(sh: Shared, kind: Kind): seq<Item> {
    match kind case Steering => sh.steering case FollowUp => sh.followUps
  }

  /** A caller past its check under the gate addresses the active submission, whose closing drain is still to come. */
  ghost predicate HolderOk(s: State) {
    s.shared.gate.ByCaller? && s.shared.gate.caller in s.callers && s.callers[s.shared.gate.caller].Offering? ==>
      var k := s.callers[s.shared.gate.caller];
      var q := QueueOf(s.shared, k.kind);
      && (k.at.StillActive? || k.at.Accepting? || k.at.Offered? || k.at.Announced? ==>
            s.shared.state.active == Some(k.sub) && k.sub in s.fibers)
      && (k.at.Accepting? ==>
            if k.kind == Steering then !SteerShut(s.fibers[k.sub]) else !FollowDry(s.fibers[k.sub]))
      && (k.at.Offered? ==> |q| > 0 && q[|q| - 1] == Item(k.sub, k.body))
  }

  /** Accepted, but its `Queued` event not yet out. */
  function Unannounced(s: State, kind: Kind, a: nat): seq<Item> {
    if s.shared.gate.ByCaller? && s.shared.gate.caller in s.callers then
      var k := s.callers[s.shared.gate.caller];
      if k.Offering? && k.at.Offered? && k.kind == kind && k.sub == a then [Item(a, k.body)] else []
    else []
  }

  ghost predicate Owned(items: seq<Item>, a: nat) {
    forall i | 0 <= i < |items| :: items[i].owner == a
  }

  /** One submission's inputs, in every state of its fibre and after it. */
  ghost predicate InputsOk(sh: Shared, a: nat, f: Fiber, mine: bool) {
    && Flat(SteerPipe(sh, a, f, mine)) == f.steers.accepted
    && Flat(FollowPipe(sh, a, f, mine)) == f.follows.accepted
    && Owned(f.steers.accepted, a) && Owned(f.follows.accepted, a)
  }

  ghost predicate AnnouncedOk(s: State, a: nat)
    requires a in s.fibers
  {
    && s.fibers[a].steers.accepted == s.fibers[a].steers.announced + Unannounced(s, Steering, a)
    && s.fibers[a].follows.accepted == s.fibers[a].follows.announced + Unannounced(s, FollowUp, a)
  }

  /** What is left of a fibre that has finished, by how it finished. */
  ghost predicate EndOk(h: seq<Entry>, a: nat, f: Fiber) {
    && (f.pc.InRelease? || f.pc.Exited? ==> Registered(f))
    && (Live(f.pc) || f.pc == InRelease(DropSteering) ==> f.steers.dropped == [])
    && (Live(f.pc) || Dropping(f.pc) ==> f.follows.dropped == [])
    && (f.exit.completed ==>
          && (f.pc.InRelease? || f.pc.Exited?) && f.input == Inputs(None, [], [])
          && f.steers.dropped == [] && f.follows.dropped == [] && Answered(h, a))
  }

  ghost predicate FiberOk(s: State, a: nat)
    requires a in s.fibers
  {
    var f := s.fibers[a];
    var h := s.shared.history;
    && InputsOk(s.shared, a, f, Mine(s, a))
    && AnnouncedOk(s, a)
    && EndOk(h, a, f)
    && CountsOk(|Items(h, Steering, a)|, |Items(h, FollowUp, a)|, f)
  }

  ghost predicate AllFibersOk(s: State) {
    forall a | a in s.fibers :: FiberOk(s, a)
  }

  ghost predicate ActiveOk(s: State) {
    if s.shared.state.active.None? then s.shared.activeFiber.None?
    else
      var a := s.shared.state.active.value;
      && a in s.fibers && BodyOk(s.shared, a, s.fibers[a])
      && TracksOk(s.shared, Turns(s.shared.history, a), a, s.fibers[a])
  }

  /** The settled slot is the last released submission's, with its own progress. */
  ghost predicate SettledOk(s: State) {
    && (s.shared.settledFiber.Some? ==>
          var last := s.shared.settledFiber.value;
          && last.sub in s.fibers && PastSettle(s.fibers[last.sub].pc)
          && Reports(last.progress, Turns(s.shared.history, last.sub), last.sub, s.fibers[last.sub]))
    && (forall a | a in s.fibers && PastSettle(s.fibers[a].pc) ::
          s.shared.settledFiber.Some? && a <= s.shared.settledFiber.value.sub)
  }

  /** Every committed turn is a matched unit, and its prompt was derived from all the history before it. */
  ghost predicate HistoryWellFormed(h: seq<Entry>) {
    forall i | 0 <= i < |h| && h[i].TurnDone? :: h[i].context == i && ToolBatch.Matched(h[i].work)
  }

  /** A snapshot's two reads of the state, when the second agrees, had no submission between them. */
  ghost predicate SnapshotOk(s: State, k: Caller) {
    k.Snapshotting? && (k.seen.IdleSeen? || k.seen.HistoryRead?) ==>
      && k.count <= s.shared.state.count
      && (k.count == s.shared.state.count ==>
            s.shared.state.active.None? && (k.seen.HistoryRead? ==> k.history == s.shared.history))
  }

  ghost predicate AwaitOk(s: State, k: Caller) {
    k.Awaiting? ==>
      && k.sub in s.fibers && s.fibers[k.sub].admission.Receipted?
      && (k.found.Second? ==> s.shared.settledFiber.Some? && k.sub <= s.shared.settledFiber.value.sub)
      && (k.found.NotFound? ==> s.shared.settledFiber.Some? && k.sub < s.shared.settledFiber.value.sub)
      && (k.found.FoundSettled? ==>
            PastSettle(s.fibers[k.sub].pc)
            && Reports(k.found.progress, Turns(s.shared.history, k.sub), k.sub, s.fibers[k.sub]))
  }

  ghost predicate CallersOk(s: State) {
    forall c | c in s.callers :: SnapshotOk(s, s.callers[c]) && AwaitOk(s, s.callers[c])
  }

  ghost predicate Inv(s: State) {
    && Shape(s) && GateOk(s) && QueuesOk(s) && HolderOk(s) && AllFibersOk(s) && ActiveOk(s) && SettledOk(s)
    && HistoryWellFormed(s.shared.history) && CallersOk(s)
  }

  // --------------------------------------------------- a fibre's step, in place

  /** The tail of `release`, after the session is idle: nothing but the drains and the gate. */
  predicate TailMoved(sh: Shared, f: Fiber, r: Stepped) {
    || Live(f.pc)
    || (r.shared == sh && r.fiber.pc == f.pc && r.fiber.exit == f.exit)
    || (&& r.shared.history == sh.history && r.shared.progress == sh.progress && r.shared.state == sh.state
     && r.shared.activeFiber == sh.activeFiber && r.shared.settledFiber == sh.settledFiber && r.fiber.exit == f.exit
     && (f.pc == InRelease(DropSteering) ==> r.fiber.pc == InRelease(DropFollowUps) && r.shared.steering == [])
     && (f.pc == InRelease(DropFollowUps) ==>
           r.fiber.pc == InRelease(OpenGate) && r.shared.followUps == [] && r.shared.steering == sh.steering)
     && (f.pc == InRelease(OpenGate) ==>
           r.fiber.pc.Exited? && r.shared.followUps == sh.followUps && r.shared.steering == sh.steering)
     && !f.pc.Exited?)
  }

  /** The settled slot is written once per fibre, and what it reports is then final. */
  predicate SettledMoved(sh: Shared, a: nat, f: Fiber, r: Stepped) {
    && (r.shared.settledFiber == sh.settledFiber
        || (Live(f.pc) && PastSettle(r.fiber.pc) && r.shared.settledFiber.Some?
            && r.shared.settledFiber.value.sub == a))
    && (PastSettle(f.pc) ==>
          && PastSettle(r.fiber.pc) && r.fiber.runs == f.runs && r.fiber.exit == f.exit
          && r.shared.history == sh.history && r.shared.settledFiber == sh.settledFiber)
    && (PastSettle(r.fiber.pc) && !PastSettle(f.pc) ==> Live(r.fiber.pc) && r.shared.history == sh.history)
    && (f.admission.Receipted? ==> r.fiber.admission.Receipted?)
  }

  /** What a fibre's step needs of the session. */
  ghost predicate Ready(sh: Shared, a: nat, f: Fiber, mine: bool) {
    && GateHeld(sh, a, f) && EndOk(sh.history, a, f) && HistoryWellFormed(sh.history)
    && CountsOk(|Items(sh.history, Steering, a)|, |Items(sh.history, FollowUp, a)|, f)
    && (Live(f.pc) ==> BodyOk(sh, a, f) && TracksOk(sh, Turns(sh.history, a), a, f))
    && (HoldsGate(f.pc) && f.pc != InRelease(OpenGate) ==> mine)
    && (mine ==> Live(f.pc) || Dropping(f.pc))
    && (f.pc == InRelease(DropFollowUps) ==> sh.steering == [])
    && (f.exit.completed && HoldsGate(f.pc) ==> sh.steering == [] && sh.followUps == [])
  }

  lemma InvReady(s: State, a: nat)
    requires Inv(s) && a in s.fibers
    ensures Ready(s.shared, a, s.fibers[a], Mine(s, a))
  {
    assert FiberOk(s, a);
    IsReady(s, a);
  }

  lemma IsReady(s: State, a: nat)
    requires Shape(s) && GateOk(s) && QueuesOk(s) && ActiveOk(s) && HistoryWellFormed(s.shared.history)
    requires a in s.fibers && FiberOk(s, a)
    ensures Ready(s.shared, a, s.fibers[a], Mine(s, a))
  {
  }

  /** The rest of `StepOk`: what a fibre's step leaves at its end, in history and in the settled slot. */
  ghost predicate RestOk(sh: Shared, a: nat, f: Fiber, r: Stepped) {
    && EndOk(r.shared.history, a, r.fiber) && TailMoved(sh, f, r) && SettledMoved(sh, a, f, r)
    && HistoryWellFormed(r.shared.history)
    && (r.fiber.exit.completed && HoldsGate(r.fiber.pc) ==> r.shared.steering == [] && r.shared.followUps == [])
    && (f.pc == InRelease(SetIdle) ==> r.shared.activeFiber.None?)
  }

  /** The step is one that fibres may take. */
  ghost predicate FlowOk(sh: Shared, a: nat, f: Fiber, r: Stepped, mine: bool) {
    && Moved(sh, a, f, r)
    && BothFlow(sh, a, f, r, mine, mine && r.fiber.pc != InRelease(OpenGate))
    && (Live(f.pc) ==> ShutsUnderGate(f, r))
  }

  /** The fibre is in order afterwards. */
  ghost predicate KeptOk(a: nat, r: Stepped) {
    && CountsOk(|Items(r.shared.history, Steering, a)|, |Items(r.shared.history, FollowUp, a)|, r.fiber)
    && (Live(r.fiber.pc) ==>
          BodyOk(r.shared, a, r.fiber) && TracksOk(r.shared, Turns(r.shared.history, a), a, r.fiber))
  }

  /** What the session must be told of a fibre's step. */
  ghost predicate StepOk(sh: Shared, a: nat, f: Fiber, r: Stepped, mine: bool) {
    FlowOk(sh, a, f, r, mine) && KeptOk(a, r) && RestOk(sh, a, f, r)
  }

  lemma StepKeepsShape(s: State, a: nat, r: Stepped)
    requires Shape(s) && a in s.fibers && Moved(s.shared, a, s.fibers[a], r)
    ensures Shape(Committed(s, a, r))
  {
  }

  lemma StepKeepsGate(s: State, a: nat, r: Stepped)
    requires GateOk(s) && a in s.fibers && Moved(s.shared, a, s.fibers[a], r)
    ensures GateOk(Committed(s, a, r))
  {
  }

  lemma StepKeepsQueues(s: State, a: nat, r: Stepped)
    requires Shape(s) && GateOk(s) && QueuesOk(s) && a in s.fibers && StepOk(s.shared, a, s.fibers[a], r, Mine(s, a))
    ensures QueuesOk(Committed(s, a, r))
  {
  }

  lemma StepKeepsHolder(s: State, a: nat, r: Stepped)
    requires Shape(s) && GateOk(s) && HolderOk(s) && a in s.fibers && StepOk(s.shared, a, s.fibers[a], r, Mine(s, a))
    ensures HolderOk(Committed(s, a, r))
  {
  }

  // ------------------------------------------------------ every other fibre

  lemma StepKeepsOthersQueues(s: State, a: nat, r: Stepped, b: nat)
    requires Shape(s) && GateOk(s) && QueuesOk(s)
    requires a in s.fibers && b in s.fibers && b != a && StepOk(s.shared, a, s.fibers[a], r, Mine(s, a))
    ensures var t := Committed(s, a, r);
            && (if Mine(t, b) then r.shared.steering else []) == (if Mine(s, b) then s.shared.steering else [])
            && (if Mine(t, b) then r.shared.followUps else []) == (if Mine(s, b) then s.shared.followUps else [])
  {
  }

  /** Another's entries are none of `b`'s, and leave `b`'s inputs answered. */
  lemma OthersHistory(sh: Shared, a: nat, r: Stepped, b: nat)
    requires HistoryMoved(sh, a, r) && b != a
    ensures Items(r.shared.history, Steering, b) == Items(sh.history, Steering, b)
    ensures Items(r.shared.history, FollowUp, b) == Items(sh.history, FollowUp, b)
    ensures Turns(r.shared.history, b) == Turns(sh.history, b)
    ensures Answered(sh.history, b) ==> Answered(r.shared.history, b)
  {
    var n := |sh.history|;
    if r.shared.history != sh.history {
      Append(sh.history, r.shared.history[n], b);
      if Answered(sh.history, b) {
        forall i | 0 <= i < n + 1 && r.shared.history[i].Applied? && r.shared.history[i].sub == b
          ensures exists j :: i < j < n + 1 && TurnOf(r.shared.history[j], b)
        {
          assert sh.history[i] == r.shared.history[i];
          var j :| i < j < n && TurnOf(sh.history[j], b);
          assert TurnOf(r.shared.history[j], b);
        }
      }
    }
  }

  lemma StepKeepsOthersPipes(s: State, a: nat, r: Stepped, b: nat)
    requires Shape(s) && GateOk(s) && QueuesOk(s)
    requires a in s.fibers && b in s.fibers && b != a && StepOk(s.shared, a, s.fibers[a], r, Mine(s, a))
    ensures var t, f := Committed(s, a, r), s.fibers[b];
            && SteerPipe(t.shared, b, f, Mine(t, b)) == SteerPipe(s.shared, b, f, Mine(s, b))
            && FollowPipe(t.shared, b, f, Mine(t, b)) == FollowPipe(s.shared, b, f, Mine(s, b))
  {
    StepKeepsOthersQueues(s, a, r, b);
    OthersHistory(s.shared, a, r, b);
  }

  lemma StepKeepsOther(s: State, a: nat, r: Stepped, b: nat)
    requires Shape(s) && GateOk(s) && QueuesOk(s) && AllFibersOk(s)
    requires a in s.fibers && b in s.fibers && b != a && StepOk(s.shared, a, s.fibers[a], r, Mine(s, a))
    ensures FiberOk(Committed(s, a, r), b)
  {
    assert FiberOk(s, b);
    StepKeepsOthersPipes(s, a, r, b);
    OtherStaysOk(s, a, r, b);
  }

  lemma OtherStaysOk(s: State, a: nat, r: Stepped, b: nat)
    requires a in s.fibers && b in s.fibers && b != a && FiberOk(s, b) && Moved(s.shared, a, s.fibers[a], r)
    requires var t, f := Committed(s, a, r), s.fibers[b];
             && SteerPipe(t.shared, b, f, Mine(t, b)) == SteerPipe(s.shared, b, f, Mine(s, b))
             && FollowPipe(t.shared, b, f, Mine(t, b)) == FollowPipe(s.shared, b, f, Mine(s, b))
    ensures FiberOk(Committed(s, a, r), b)
  {
    OthersHistory(s.shared, a, r, b);
  }

  /** What a step leaves in the queues is the fibre's own, until its release has emptied them. */
  lemma StepKeepsOwnQueues(s: State, a: nat, r: Stepped)
    requires Shape(s) && GateOk(s) && QueuesOk(s) && a in s.fibers && StepOk(s.shared, a, s.fibers[a], r, Mine(s, a))
    ensures var t, after := Committed(s, a, r), Mine(s, a) && r.fiber.pc != InRelease(OpenGate);
            && (if Mine(t, a) then r.shared.steering else []) == (if after then r.shared.steering else [])
            && (if Mine(t, a) then r.shared.followUps else []) == (if after then r.shared.followUps else [])
  {
  }

  lemma FlowKeepsInputs(sh: Shared, a: nat, f: Fiber, r: Stepped, before: bool, after: bool)
    requires InputsOk(sh, a, f, before) && BothFlow(sh, a, f, r, before, after)
    requires LogMoved(f.steers, r.fiber.steers) && LogMoved(f.follows, r.fiber.follows)
    ensures InputsOk(r.shared, a, r.fiber, after)
  {
    FlowKeepsOrder(SteerPipe(sh, a, f, before), SteerPipe(r.shared, a, r.fiber, after));
    FlowKeepsOrder(FollowPipe(sh, a, f, before), FollowPipe(r.shared, a, r.fiber, after));
  }

  lemma SameQueuesKeepInputs(sh: Shared, a: nat, f: Fiber, mine: bool, after: bool)
    requires InputsOk(sh, a, f, after)
    requires (if mine then sh.steering else []) == (if after then sh.steering else [])
    requires (if mine then sh.followUps else []) == (if after then sh.followUps else [])
    ensures InputsOk(sh, a, f, mine)
  {
    assert SteerPipe(sh, a, f, mine) == SteerPipe(sh, a, f, after);
    assert FollowPipe(sh, a, f, mine) == FollowPipe(sh, a, f, after);
  }

  lemma StepKeepsOwn(s: State, a: nat, r: Stepped)
    requires Shape(s) && GateOk(s) && QueuesOk(s) && a in s.fibers && FiberOk(s, a)
    requires StepOk(s.shared, a, s.fibers[a], r, Mine(s, a))
    ensures FiberOk(Committed(s, a, r), a)
  {
    var after := Mine(s, a) && r.fiber.pc != InRelease(OpenGate);
    StepKeepsOwnQueues(s, a, r);
    FlowKeepsInputs(s.shared, a, s.fibers[a], r, Mine(s, a), after);
    SameQueuesKeepInputs(r.shared, a, r.fiber, Mine(Committed(s, a, r), a), after);
  }

  /** The tail of an earlier release only empties queues, which the active submission's flags allow. */
  lemma TailKeepsActive(sh: Shared, a: nat, f: Fiber, r: Stepped, b: nat, g: Fiber)
    requires TailMoved(sh, f, r) && !Live(f.pc) && Moved(sh, a, f, r)
    requires BodyOk(sh, b, g) && TracksOk(sh, Turns(sh.history, b), b, g)
    ensures BodyOk(r.shared, b, g) && TracksOk(r.shared, Turns(r.shared.history, b), b, g)
  {
  }

  lemma StepKeepsActive(s: State, a: nat, r: Stepped)
    requires Shape(s) && ActiveOk(s) && a in s.fibers && StepOk(s.shared, a, s.fibers[a], r, Mine(s, a))
    ensures ActiveOk(Committed(s, a, r))
  {
    if !Live(s.fibers[a].pc) && s.shared.state.active.Some? {
      var b := s.shared.state.active.value;
      TailKeepsActive(s.shared, a, s.fibers[a], r, b, s.fibers[b]);
    }
  }

  lemma StepKeepsSettled(s: State, a: nat, r: Stepped)
    requires Shape(s) && ActiveOk(s) && SettledOk(s) && a in s.fibers && StepOk(s.shared, a, s.fibers[a], r, Mine(s, a))
    ensures SettledOk(Committed(s, a, r))
  {
    if s.shared.settledFiber.Some? && s.shared.settledFiber.value.sub != a {
      OthersHistory(s.shared, a, r, s.shared.settledFiber.value.sub);
    }
  }

  lemma StepKeepsSnapshot(s: State, a: nat, r: Stepped, k: Caller)
    requires Shape(s) && a in s.fibers && SnapshotOk(s, k) && StepOk(s.shared, a, s.fibers[a], r, Mine(s, a))
    ensures SnapshotOk(Committed(s, a, r), k)
  {
  }

  lemma StepKeepsAwait(s: State, a: nat, r: Stepped, k: Caller)
    requires Shape(s) && SettledOk(s) && a in s.fibers && AwaitOk(s, k)
    requires StepOk(s.shared, a, s.fibers[a], r, Mine(s, a))
    ensures AwaitOk(Committed(s, a, r), k)
  {
    if k.Awaiting? && k.sub != a { OthersHistory(s.shared, a, r, k.sub); }
  }

  lemma StepKeepsInv(s: State, a: nat, r: Stepped)
    requires Inv(s) && a in s.fibers && StepOk(s.shared, a, s.fibers[a], r, Mine(s, a))
    ensures Inv(Committed(s, a, r))
  {
    var t := Committed(s, a, r);
    StepKeepsShape(s, a, r);
    StepKeepsGate(s, a, r);
    StepKeepsQueues(s, a, r);
    StepKeepsHolder(s, a, r);
    forall b | b in t.fibers ensures FiberOk(t, b) {
      if b == a { StepKeepsOwn(s, a, r); } else { StepKeepsOther(s, a, r, b); }
    }
    StepKeepsActive(s, a, r);
    StepKeepsSettled(s, a, r);
    forall c | c in t.callers ensures SnapshotOk(t, t.callers[c]) && AwaitOk(t, t.callers[c]) {
      StepKeepsSnapshot(s, a, r, s.callers[c]);
      StepKeepsAwait(s, a, r, s.callers[c]);
    }
  }

  // ------------------------------------------- the steps a fibre really takes

  lemma EndsAnswered(h: seq<Entry>, a: nat)
    requires EndsWithTurn(h, a)
    ensures Answered(h, a)
  {
    forall i | 0 <= i < |h| && h[i].Applied? && h[i].sub == a
      ensures exists j :: i < j < |h| && TurnOf(h[j], a)
    {
      assert i < |h| - 1 && TurnOf(h[|h| - 1], a);
    }
  }

  lemma SubmissionEnds(sh: Shared, a: nat, f: Fiber)
    requires f.pc.InSubmission? && BodyOk(sh, a, f) && EndOk(sh.history, a, f)
    ensures var r := AdvanceSubmission(sh, a, f, f.pc.submission); EndOk(r.shared.history, a, r.fiber)
  {
    if f.pc.submission.Head? && AfterTurn(f) { EndsAnswered(sh.history, a); }
  }

  /** A submission's step touches neither the settled slot nor any turn of history. */
  lemma SubmissionSettles(sh: Shared, a: nat, f: Fiber)
    requires f.pc.InSubmission?
    ensures SettledMoved(sh, a, f, AdvanceSubmission(sh, a, f, f.pc.submission))
  {
  }

  lemma SubmissionWellFormed(sh: Shared, a: nat, f: Fiber)
    requires f.pc.InSubmission? && HistoryWellFormed(sh.history)
    ensures HistoryWellFormed(AdvanceSubmission(sh, a, f, f.pc.submission).shared.history)
  {
  }

  lemma SubmissionRest(sh: Shared, a: nat, f: Fiber)
    requires f.pc.InSubmission? && BodyOk(sh, a, f) && EndOk(sh.history, a, f) && HistoryWellFormed(sh.history)
    ensures RestOk(sh, a, f, AdvanceSubmission(sh, a, f, f.pc.submission))
  {
    SubmissionEnds(sh, a, f);
    SubmissionSettles(sh, a, f);
    SubmissionWellFormed(sh, a, f);
  }

  lemma SteeringRest(sh: Shared, a: nat, f: Fiber)
    requires f.pc.InSteering? && BodyOk(sh, a, f) && EndOk(sh.history, a, f) && HistoryWellFormed(sh.history)
    ensures RestOk(sh, a, f, AdvanceSteering(sh, a, f, f.pc.late, f.pc.steering))
  {
  }

  lemma RunEnds(sh: Shared, a: nat, f: Fiber, outcome: Option<ToolBatch.Work>, verdict: AgentLoop.Verdict)
    requires f.pc.InRun? && LocalsOk(f) && EndOk(sh.history, a, f)
    ensures var r := AdvanceRun(sh, a, f, f.pc.run, outcome, verdict); EndOk(r.shared.history, a, r.fiber)
  {
  }

  lemma RunWellFormed(sh: Shared, a: nat, f: Fiber, outcome: Option<ToolBatch.Work>, verdict: AgentLoop.Verdict)
    requires f.pc.InRun? && BodyOk(sh, a, f) && HistoryWellFormed(sh.history)
    ensures HistoryWellFormed(AdvanceRun(sh, a, f, f.pc.run, outcome, verdict).shared.history)
  {
  }

  lemma RunSettles(sh: Shared, a: nat, f: Fiber, outcome: Option<ToolBatch.Work>, verdict: AgentLoop.Verdict)
    requires f.pc.InRun?
    ensures SettledMoved(sh, a, f, AdvanceRun(sh, a, f, f.pc.run, outcome, verdict))
  {
  }

  lemma RunRest(sh: Shared, a: nat, f: Fiber, outcome: Option<ToolBatch.Work>, verdict: AgentLoop.Verdict)
    requires f.pc.InRun? && BodyOk(sh, a, f) && EndOk(sh.history, a, f) && HistoryWellFormed(sh.history)
    ensures RestOk(sh, a, f, AdvanceRun(sh, a, f, f.pc.run, outcome, verdict))
  {
    RunEnds(sh, a, f, outcome, verdict);
    RunSettles(sh, a, f, outcome, verdict);
    RunWellFormed(sh, a, f, outcome, verdict);
  }

  lemma ReleaseRest(sh: Shared, a: nat, f: Fiber)
    requires f.pc.InRelease? && EndOk(sh.history, a, f) && HistoryWellFormed(sh.history)
    requires Live(f.pc) ==> BodyOk(sh, a, f) && RefsOk(sh, Turns(sh.history, a), a, f)
    requires f.exit.completed && HoldsGate(f.pc) ==> sh.steering == [] && sh.followUps == []
    ensures RestOk(sh, a, f, AdvanceRelease(sh, a, f, f.pc.release))
  {
  }

  lemma SubmissionFlowOk(sh: Shared, a: nat, f: Fiber, mine: bool)
    requires f.pc.InSubmission? && Ready(sh, a, f, mine)
    ensures FlowOk(sh, a, f, AdvanceSubmission(sh, a, f, f.pc.submission), mine)
  {
    SubmissionMoves(sh, a, f);
    SubmissionFlows(sh, a, f, mine);
    SubmissionShuts(sh, a, f);
  }

  lemma SubmissionKeptOk(sh: Shared, a: nat, f: Fiber, mine: bool)
    requires f.pc.InSubmission? && Ready(sh, a, f, mine)
    ensures KeptOk(a, AdvanceSubmission(sh, a, f, f.pc.submission))
  {
    SubmissionGains(sh, a, f);
    SubmissionCounts(sh, |Items(sh.history, Steering, a)|, |Items(sh.history, FollowUp, a)|, a, f);
    SubmissionKeepsLocals(sh, a, f);
    if Closing(f.pc.submission) { SubmissionKeepsFlags1(sh, a, f); } else { SubmissionKeepsFlags2(sh, a, f); }
    SubmissionKeepsHistory(sh, a, f);
    SubmissionTracks(sh, Turns(sh.history, a), a, f);
  }

  lemma SubmissionStepOk(sh: Shared, a: nat, f: Fiber, mine: bool)
    requires f.pc.InSubmission? && Ready(sh, a, f, mine)
    ensures StepOk(sh, a, f, AdvanceSubmission(sh, a, f, f.pc.submission), mine)
  {
    SubmissionFlowOk(sh, a, f, mine);
    SubmissionKeptOk(sh, a, f, mine);
    SubmissionRest(sh, a, f);
  }

  lemma SteeringStepOk(sh: Shared, a: nat, f: Fiber, mine: bool)
    requires f.pc.InSteering? && Ready(sh, a, f, mine)
    ensures StepOk(sh, a, f, AdvanceSteering(sh, a, f, f.pc.late, f.pc.steering), mine)
  {
    SteeringMoves(sh, a, f);
    SteeringFlows(sh, a, f, mine);
    SteeringShuts(sh, a, f);
    SteeringGains(sh, a, f);
    SteeringCounts(sh, |Items(sh.history, Steering, a)|, |Items(sh.history, FollowUp, a)|, a, f);
    SteeringKeepsBody(sh, a, f);
    SteeringTracks(sh, Turns(sh.history, a), a, f);
    SteeringRest(sh, a, f);
  }

  lemma RunFlowOk(sh: Shared, a: nat, f: Fiber, outcome: Option<ToolBatch.Work>, verdict: AgentLoop.Verdict, mine: bool)
    requires f.pc.InRun? && Ready(sh, a, f, mine)
    ensures FlowOk(sh, a, f, AdvanceRun(sh, a, f, f.pc.run, outcome, verdict), mine)
  {
    RunMoves(sh, a, f, outcome, verdict);
    RunFlows(sh, a, f, outcome, verdict, mine);
    RunShuts(sh, a, f, outcome, verdict);
  }

  lemma RunKeptOk(sh: Shared, a: nat, f: Fiber, outcome: Option<ToolBatch.Work>, verdict: AgentLoop.Verdict, mine: bool)
    requires f.pc.InRun? && Ready(sh, a, f, mine) && (outcome.Some? ==> ToolBatch.Matched(outcome.value))
    ensures KeptOk(a, AdvanceRun(sh, a, f, f.pc.run, outcome, verdict))
  {
    RunGains(sh, a, f, outcome, verdict);
    RunCounts(sh, |Items(sh.history, Steering, a)|, |Items(sh.history, FollowUp, a)|, a, f, outcome, verdict);
    RunKeepsLocals(sh, a, f, outcome, verdict);
    RunKeepsFlags(sh, a, f, outcome, verdict);
    RunKeepsHistory(sh, a, f, outcome, verdict);
    RunTracks(sh, Turns(sh.history, a), a, f, outcome, verdict);
  }

  lemma RunStepOk(sh: Shared, a: nat, f: Fiber, outcome: Option<ToolBatch.Work>, verdict: AgentLoop.Verdict, mine: bool)
    requires f.pc.InRun? && Ready(sh, a, f, mine) && (outcome.Some? ==> ToolBatch.Matched(outcome.value))
    ensures StepOk(sh, a, f, AdvanceRun(sh, a, f, f.pc.run, outcome, verdict), mine)
  {
    RunFlowOk(sh, a, f, outcome, verdict, mine);
    RunKeptOk(sh, a, f, outcome, verdict, mine);
    RunRest(sh, a, f, outcome, verdict);
  }

  lemma ReleaseStepOk(sh: Shared, a: nat, f: Fiber, mine: bool)
    requires f.pc.InRelease? && Ready(sh, a, f, mine)
    ensures StepOk(sh, a, f, AdvanceRelease(sh, a, f, f.pc.release), mine)
  {
    ReleaseMoves(sh, a, f);
    if Dropping(f.pc) { DropFlows(sh, a, f); } else { ReleaseFlows(sh, a, f, mine); }
    ReleaseKeepsHistory(sh, a, f);
    if Live(f.pc) {
      ReleaseKeepsBody(sh, a, f);
      ReleaseTracks(sh, Turns(sh.history, a), a, f);
    }
    ReleaseRest(sh, a, f);
  }

  lemma AdvanceStepOk(
    sh: Shared, a: nat, f: Fiber, outcome: Option<ToolBatch.Work>, verdict: AgentLoop.Verdict, mine: bool)
    requires Ready(sh, a, f, mine) && (outcome.Some? ==> ToolBatch.Matched(outcome.value))
    ensures StepOk(sh, a, f, DoAdvance(sh, a, f, outcome, verdict), mine)
  {
    match f.pc {
      case InSubmission(_) => SubmissionStepOk(sh, a, f, mine);
      case InSteering(_, _) => SteeringStepOk(sh, a, f, mine);
      case InRun(_) => RunStepOk(sh, a, f, outcome, verdict, mine);
      case InRelease(_) => ReleaseStepOk(sh, a, f, mine);
      case Unborn => StayStepOk(sh, a, f, f, mine);
      case Exited => StayStepOk(sh, a, f, f, mine);
    }
  }

  /** A finished admission, or nothing at all, is a step too. */
  lemma StayStepOk(sh: Shared, a: nat, f: Fiber, g: Fiber, mine: bool)
    requires Ready(sh, a, f, mine) && Registered(g) == Registered(f) && g == f.(admission := g.admission)
    requires g.admission != f.admission ==> f.admission.Installed? && g.admission.Receipted?
    ensures StepOk(sh, a, f, Stepped(sh, g), mine)
  {
    StillFlows(sh, a, f, Stepped(sh, g), mine);
    StayMoves(sh, a, f, g);
    if Live(f.pc) { StayBody(sh, Turns(sh.history, a), a, f, g); }
  }

  lemma StayMoves(sh: Shared, a: nat, f: Fiber, g: Fiber)
    requires GateHeld(sh, a, f) && EndOk(sh.history, a, f) && HistoryWellFormed(sh.history)
    requires f.exit.completed && HoldsGate(f.pc) ==> sh.steering == [] && sh.followUps == []
    requires Registered(g) == Registered(f) && g == f.(admission := g.admission)
    requires f.pc == InRelease(SetIdle) ==> sh.activeFiber.None?
    requires g.admission != f.admission ==> f.admission.Installed? && g.admission.Receipted?
    ensures var r := Stepped(sh, g); Moved(sh, a, f, r) && ShutsUnderGate(f, r) && RestOk(sh, a, f, r)
  {
  }

  lemma StayBody(sh: Shared, turns: nat, a: nat, f: Fiber, g: Fiber)
    requires BodyOk(sh, a, f) && TracksOk(sh, turns, a, f)
    requires Registered(g) == Registered(f) && g == f.(admission := g.admission)
    requires g.admission != f.admission ==> f.admission.Installed? && g.admission.Receipted?
    ensures BodyOk(sh, a, g) && TracksOk(sh, turns, a, g)
  {
  }

  // -------------------------------------------------- admission and abortion

  lemma AdmitTracks(sh: Shared, turns: nat, a: nat, f: Fiber)
    requires f.admission.Claimed? || f.admission.Zeroed? || f.admission.Forked?
    requires LocalsOk(f) && TracksOk(sh, turns, a, f)
    ensures var r := DoAdmit(sh, a, f); LocalsOk(r.fiber) && TracksOk(r.shared, turns, a, r.fiber)
  {
  }

  lemma AdmitRest(sh: Shared, a: nat, f: Fiber, mine: bool)
    requires f.admission.Claimed? || f.admission.Zeroed? || f.admission.Forked?
    requires Ready(sh, a, f, mine) && Live(f.pc)
    ensures var r := DoAdmit(sh, a, f); Moved(sh, a, f, r) && RestOk(sh, a, f, r) && ShutsUnderGate(f, r)
  {
  }

  lemma AdmitStepOk(sh: Shared, a: nat, f: Fiber, mine: bool)
    requires Ready(sh, a, f, mine) && (Live(f.pc) || Registered(f))
    ensures StepOk(sh, a, f, DoAdmit(sh, a, f), mine)
  {
    if Registered(f) {
      StayStepOk(sh, a, f, f.(admission := Receipted), mine);
    } else {
      StillFlows(sh, a, f, DoAdmit(sh, a, f), mine);
      AdmitTracks(sh, Turns(sh.history, a), a, f);
      AdmitRest(sh, a, f, mine);
    }
  }

  lemma AbortRest(sh: Shared, a: nat, f: Fiber, mine: bool)
    requires Ready(sh, a, f, mine) && Abortable(f)
    ensures var r := Leave(sh, a, f);
            Moved(sh, a, f, r) && RestOk(sh, a, f, r) && ShutsUnderGate(f, r) && BodyOk(r.shared, a, r.fiber)
  {
  }

  lemma AbortStepOk(sh: Shared, a: nat, f: Fiber, mine: bool)
    requires Ready(sh, a, f, mine) && Abortable(f)
    ensures StepOk(sh, a, f, Leave(sh, a, f), mine)
  {
    StillFlows(sh, a, f, Leave(sh, a, f), mine);
    AbortRest(sh, a, f, mine);
  }

  lemma FiberStepsKeepInv(s: State, a: nat, outcome: Option<ToolBatch.Work>, verdict: AgentLoop.Verdict)
    requires Inv(s) && a in s.fibers && (outcome.Some? ==> ToolBatch.Matched(outcome.value))
    ensures Inv(Committed(s, a, DoAdvance(s.shared, a, s.fibers[a], outcome, verdict)))
    ensures Inv(Committed(s, a, DoAdmit(s.shared, a, s.fibers[a])))
    ensures Abortable(s.fibers[a]) ==> Inv(Committed(s, a, Leave(s.shared, a, s.fibers[a])))
  {
    var sh, f, mine := s.shared, s.fibers[a], Mine(s, a);
    InvReady(s, a);
    AdvanceStepOk(sh, a, f, outcome, verdict, mine);
    StepKeepsInv(s, a, DoAdvance(sh, a, f, outcome, verdict));
    AdmitStepOk(sh, a, f, mine);
    StepKeepsInv(s, a, DoAdmit(sh, a, f));
    if Abortable(f) {
      AbortStepOk(sh, a, f, mine);
      StepKeepsInv(s, a, Leave(sh, a, f));
    }
  }

  // ------------------------------------------ steps that leave fibres as they are

  ghost predicate SessionOk(s: State) {
    && Shape(s) && GateOk(s) && QueuesOk(s) && HolderOk(s) && ActiveOk(s) && SettledOk(s)
    && HistoryWellFormed(s.shared.history)
  }

  predicate SameInputs(s: State, t: State, a: nat) {
    && t.shared.history == s.shared.history
    && (if Mine(t, a) then t.shared.steering else []) == (if Mine(s, a) then s.shared.steering else [])
    && (if Mine(t, a) then t.shared.followUps else []) == (if Mine(s, a) then s.shared.followUps else [])
    && Unannounced(t, Steering, a) == Unannounced(s, Steering, a)
    && Unannounced(t, FollowUp, a) == Unannounced(s, FollowUp, a)
  }

  lemma FiberFrame(s: State, t: State, a: nat)
    requires a in s.fibers && a in t.fibers && t.fibers[a] == s.fibers[a]
    requires FiberOk(s, a) && SameInputs(s, t, a)
    ensures FiberOk(t, a)
  {
    assert SteerPipe(t.shared, a, t.fibers[a], Mine(t, a)) == SteerPipe(s.shared, a, s.fibers[a], Mine(s, a));
    assert FollowPipe(t.shared, a, t.fibers[a], Mine(t, a)) == FollowPipe(s.shared, a, s.fibers[a], Mine(s, a));
  }

  lemma ClaimKeepsShape(s: State, body: nat)
    requires Shape(s) && GateOk(s) && QueuesOk(s) && HolderOk(s) && s.shared.state.status.Idle?
    ensures var t := DoClaim(s, body); Shape(t) && GateOk(t) && QueuesOk(t) && HolderOk(t)
  {
  }

  lemma ClaimKeepsSession(s: State, body: nat)
    requires SessionOk(s) && s.shared.state.status.Idle?
    ensures SessionOk(DoClaim(s, body))
  {
    ClaimKeepsShape(s, body);
    NothingYet(s.shared.history, s.shared.state.count + 1);
  }

  lemma ClaimedFiber(s: State, body: nat)
    requires Shape(s) && GateOk(s) && QueuesOk(s) && HolderOk(s) && s.shared.state.status.Idle?
    ensures FiberOk(DoClaim(s, body), s.shared.state.count + 1)
  {
    var a, t := s.shared.state.count + 1, DoClaim(s, body);
    NothingYet(s.shared.history, a);
    ClaimedQueues(s, body);
    assert SteerPipe(t.shared, a, t.fibers[a], Mine(t, a)) == Pipe([], [], [], []);
    assert FollowPipe(t.shared, a, t.fibers[a], Mine(t, a)) == Pipe([], [], [], []);
  }

  lemma ClaimedQueues(s: State, body: nat)
    requires Shape(s) && GateOk(s) && QueuesOk(s) && HolderOk(s) && s.shared.state.status.Idle?
    ensures var t, a := DoClaim(s, body), s.shared.state.count + 1;
            && (Mine(t, a) ==> Emptied(t))
            && Unannounced(t, Steering, a) == [] && Unannounced(t, FollowUp, a) == []
  {
  }

  lemma ClaimLeaves(s: State, body: nat, a: nat)
    requires Shape(s) && GateOk(s) && QueuesOk(s) && s.shared.state.status.Idle? && a in s.fibers
    ensures SameInputs(s, DoClaim(s, body), a)
  {
  }

  lemma ClaimKeepsCallers(s: State, body: nat)
    requires Shape(s) && CallersOk(s) && s.shared.state.status.Idle?
    ensures CallersOk(DoClaim(s, body))
  {
    var t := DoClaim(s, body);
    forall c | c in t.callers ensures SnapshotOk(t, t.callers[c]) && AwaitOk(t, t.callers[c]) {
      assert SnapshotOk(s, s.callers[c]) && AwaitOk(s, s.callers[c]);
    }
  }

  lemma ClaimKeepsFibers(s: State, body: nat)
    requires Shape(s) && GateOk(s) && QueuesOk(s) && HolderOk(s) && AllFibersOk(s) && s.shared.state.status.Idle?
    ensures AllFibersOk(DoClaim(s, body))
  {
    var t := DoClaim(s, body);
    forall b | b in t.fibers ensures FiberOk(t, b) {
      if b == s.shared.state.count + 1 { ClaimedFiber(s, body); }
      else { ClaimLeaves(s, body, b); FiberFrame(s, t, b); }
    }
  }

  lemma ClaimKeepsInv(s: State, body: nat)
    requires Inv(s)
    ensures Inv(DoClaim(s, body))
  {
    if s.shared.state.status.Idle? {
      ClaimKeepsSession(s, body);
      ClaimKeepsFibers(s, body);
      ClaimKeepsCallers(s, body);
    }
  }

  function ClosedState(s: State): State {
    s.(shared := s.shared.(state := s.shared.state.(status := Closed)))
  }

  lemma CloseKeepsSession(s: State)
    requires SessionOk(s)
    ensures SessionOk(ClosedState(s))
  {
  }

  lemma CloseKeepsInv(s: State)
    requires Inv(s)
    ensures Inv(ClosedState(s))
  {
    CloseKeepsSession(s);
    CloseKeepsFibers(s);
    CloseKeepsCallers(s);
  }

  lemma CloseKeepsFibers(s: State)
    requires AllFibersOk(s)
    ensures AllFibersOk(ClosedState(s))
  {
    var t := ClosedState(s);
    forall b | b in t.fibers ensures FiberOk(t, b) { FiberFrame(s, t, b); }
  }

  lemma CloseKeepsCallers(s: State)
    requires CallersOk(s)
    ensures CallersOk(ClosedState(s))
  {
    var t := ClosedState(s);
    forall c | c in t.callers ensures SnapshotOk(t, t.callers[c]) && AwaitOk(t, t.callers[c]) {
      assert SnapshotOk(s, s.callers[c]) && AwaitOk(s, s.callers[c]);
    }
  }

  // ------------------------------------------------------------- callers

  /** A caller that moves without offering or announcing, perhaps taking or giving back the gate. */
  ghost predicate Passes(s: State, c: nat, k: Caller, gate: Gate) {
    && (c in s.callers ==> !(s.callers[c].Offering? && s.callers[c].at.Offered?))
    && !(k.Offering? && k.at.Offered?)
    && (gate == s.shared.gate || (s.shared.gate == ByCaller(c) && gate == Free)
        || (s.shared.gate == Free && gate == ByCaller(c)))
    && (CallerHoldsGate(k) <==> gate == ByCaller(c))
    && (k.Offering? && (k.at.StillActive? || k.at.Accepting? || k.at.Announced?) ==>
          s.shared.state.active == Some(k.sub) && k.sub in s.fibers)
    && (k.Offering? && k.at.Accepting? ==> Accepts(s.shared.state, k.kind))
    && SnapshotOk(s, k) && AwaitOk(s, k)
  }

  lemma TurnKeepsGate(s: State, c: nat, k: Caller, gate: Gate)
    requires Shape(s) && GateOk(s) && QueuesOk(s) && Passes(s, c, k, gate)
    ensures var t := Gated(At(s, c, k), gate); Shape(t) && GateOk(t) && QueuesOk(t)
  {
  }

  lemma TurnKeepsHolder(s: State, c: nat, k: Caller, gate: Gate)
    requires GateOk(s) && HolderOk(s) && ActiveOk(s) && SettledOk(s) && Passes(s, c, k, gate)
    ensures var t := Gated(At(s, c, k), gate); HolderOk(t) && ActiveOk(t) && SettledOk(t)
  {
  }

  lemma TurnKeepsInputs(s: State, c: nat, k: Caller, gate: Gate, a: nat)
    requires GateOk(s) && Passes(s, c, k, gate)
    ensures SameInputs(s, Gated(At(s, c, k), gate), a)
  {
  }

  lemma TurnKeepsInv(s: State, c: nat, k: Caller, gate: Gate)
    requires Inv(s) && Passes(s, c, k, gate)
    ensures Inv(Gated(At(s, c, k), gate))
  {
    var t := Gated(At(s, c, k), gate);
    TurnKeepsGate(s, c, k, gate);
    TurnKeepsHolder(s, c, k, gate);
    forall b | b in t.fibers ensures FiberOk(t, b) { TurnKeepsInputs(s, c, k, gate, b); FiberFrame(s, t, b); }
    forall d | d in t.callers ensures SnapshotOk(t, t.callers[d]) && AwaitOk(t, t.callers[d]) {
      if d != c { assert SnapshotOk(s, s.callers[d]) && AwaitOk(s, s.callers[d]); }
    }
  }

  /** A caller holding the gate, having read that input is accepted. */
  ghost predicate MayOffer(s: State, c: nat) {
    c in s.callers && s.callers[c].Offering? && s.callers[c].at.Accepting?
  }

  lemma OfferKeepsGate(s: State, c: nat)
    requires SessionOk(s) && MayOffer(s, c)
    ensures var t := DoOffer(s, c, s.callers[c]); Shape(t) && GateOk(t) && QueuesOk(t) && HolderOk(t)
  {
  }

  /** What is accepted for a fibre and announced says nothing of its body. */
  lemma LogLeavesBody(sh: Shared, turns: nat, a: nat, f: Fiber, kind: Kind, log: Log)
    ensures BodyOk(sh, a, f) ==> BodyOk(sh, a, WithLog(f, kind, log))
    ensures TracksOk(sh, turns, a, f) ==> TracksOk(sh, turns, a, WithLog(f, kind, log))
  {
  }

  /** Nor does an offer to a fibre whose closing drain is still to come. */
  lemma QueuedLeavesBody(sh: Shared, turns: nat, a: nat, f: Fiber, kind: Kind, item: Item)
    requires BodyOk(sh, a, f) && TracksOk(sh, turns, a, f)
    requires (if kind == Steering then !SteerShut(f) else !FollowDry(f)) && !HoldsGate(f.pc)
    ensures BodyOk(Queued(sh, kind, item), a, f) && TracksOk(Queued(sh, kind, item), turns, a, f)
  {
  }

  lemma OfferKeepsActive(s: State, c: nat)
    requires Shape(s) && GateOk(s) && HolderOk(s) && ActiveOk(s) && MayOffer(s, c)
    ensures ActiveOk(DoOffer(s, c, s.callers[c]))
  {
    OffererHolds(s, c);
    var k, a := s.callers[c], s.callers[c].sub;
    var f, turns := s.fibers[a], Turns(s.shared.history, a);
    QueuedLeavesBody(s.shared, turns, a, f, k.kind, Item(a, k.body));
    var log := LogOf(f, k.kind);
    LogLeavesBody(Queued(s.shared, k.kind, Item(a, k.body)), turns, a, f, k.kind,
                  log.(accepted := log.accepted + [Item(a, k.body)]));
  }

  lemma OfferKeepsSettled(s: State, c: nat)
    requires SettledOk(s) && MayOffer(s, c)
    ensures SettledOk(DoOffer(s, c, s.callers[c]))
  {
  }

  lemma OfferedFlat(p: Pipe, item: Item)
    requires p.dropped == []
    ensures Flat(p.(queued := p.queued + [item])) == Flat(p) + [item]
  {
  }

  /** The submission an offer goes to is live, and the queues are its own. */
  ghost predicate OffersTo(s: State, c: nat, a: nat) {
    MayOffer(s, c) && s.callers[c].sub == a && a in s.fibers && Live(s.fibers[a].pc)
    && s.shared.gate == ByCaller(c) && s.shared.state.active == Some(a)
  }

  lemma OffererHolds(s: State, c: nat)
    requires Shape(s) && GateOk(s) && HolderOk(s) && MayOffer(s, c)
    ensures OffersTo(s, c, s.callers[c].sub)
  {
  }

  lemma OfferedInputs(sh: Shared, a: nat, f: Fiber, kind: Kind, item: Item, g: Fiber)
    requires f.steers.dropped == [] && f.follows.dropped == [] && item.owner == a && InputsOk(sh, a, f, true)
    requires g == WithLog(f, kind, LogOf(f, kind).(accepted := LogOf(f, kind).accepted + [item]))
    ensures InputsOk(Queued(sh, kind, item), a, g, true)
  {
    var p, q, sh' := SteerPipe(sh, a, f, true), FollowPipe(sh, a, f, true), Queued(sh, kind, item);
    OfferedFlat(p, item);
    OfferedFlat(q, item);
    assert SteerPipe(sh', a, g, true) == if kind == Steering then p.(queued := p.queued + [item]) else p;
    assert FollowPipe(sh', a, g, true) == if kind == Steering then q else q.(queued := q.queued + [item]);
  }

  lemma OfferedFiber(s: State, c: nat, a: nat)
    requires OffersTo(s, c, a) && FiberOk(s, a)
    ensures FiberOk(DoOffer(s, c, s.callers[c]), a)
  {
    var k, t := s.callers[c], DoOffer(s, c, s.callers[c]);
    OfferedInputs(s.shared, a, s.fibers[a], k.kind, Item(a, k.body), t.fibers[a]);
  }

  lemma OfferKeepsOthers(s: State, c: nat, b: nat)
    requires SessionOk(s) && MayOffer(s, c) && b in s.fibers && b != s.callers[c].sub
    ensures SameInputs(s, DoOffer(s, c, s.callers[c]), b)
  {
  }

  lemma OfferKeepsCallers(s: State, c: nat)
    requires SettledOk(s) && CallersOk(s) && MayOffer(s, c) && s.callers[c].sub in s.fibers
    ensures CallersOk(DoOffer(s, c, s.callers[c]))
  {
    var t := DoOffer(s, c, s.callers[c]);
    forall d | d in t.callers ensures SnapshotOk(t, t.callers[d]) && AwaitOk(t, t.callers[d]) {
      if d != c { assert SnapshotOk(s, s.callers[d]) && AwaitOk(s, s.callers[d]); }
    }
  }

  lemma OfferKeepsFiber(s: State, c: nat, b: nat)
    requires SessionOk(s) && AllFibersOk(s) && MayOffer(s, c) && b in s.fibers
    ensures b in DoOffer(s, c, s.callers[c]).fibers && FiberOk(DoOffer(s, c, s.callers[c]), b)
  {
    assert FiberOk(s, b);
    if b == s.callers[c].sub { OffererHolds(s, c); OfferedFiber(s, c, b); }
    else { OfferKeepsOthers(s, c, b); FiberFrame(s, DoOffer(s, c, s.callers[c]), b); }
  }

  lemma OfferKeepsInv(s: State, c: nat)
    requires Inv(s) && MayOffer(s, c)
    ensures Inv(DoOffer(s, c, s.callers[c]))
  {
    var t := DoOffer(s, c, s.callers[c]);
    OfferKeepsGate(s, c);
    OfferKeepsActive(s, c);
    OfferKeepsSettled(s, c);
    OfferKeepsCallers(s, c);
    forall b | b in t.fibers ensures FiberOk(t, b) { OfferKeepsFiber(s, c, b); }
  }

  ghost predicate MayAnnounce(s: State, c: nat) {
    c in s.callers && s.callers[c].Offering? && s.callers[c].at.Offered?
  }

  lemma AnnounceKeepsGate(s: State, c: nat)
    requires Shape(s) && GateOk(s) && QueuesOk(s) && HolderOk(s) && MayAnnounce(s, c)
    ensures var t := DoAnnounce(s, c, s.callers[c]); Shape(t) && GateOk(t) && QueuesOk(t) && HolderOk(t)
  {
  }

  lemma AnnounceKeepsActive(s: State, c: nat)
    requires ActiveOk(s) && MayAnnounce(s, c)
    ensures ActiveOk(DoAnnounce(s, c, s.callers[c]))
  {
    var k, a := s.callers[c], s.callers[c].sub;
    if a in s.fibers {
      var log := LogOf(s.fibers[a], k.kind);
      LogLeavesBody(s.shared, Turns(s.shared.history, a), a, s.fibers[a], k.kind,
                    log.(announced := log.announced + [Item(a, k.body)]));
    }
  }

  lemma AnnounceKeepsSettled(s: State, c: nat)
    requires SettledOk(s) && MayAnnounce(s, c)
    ensures SettledOk(DoAnnounce(s, c, s.callers[c]))
  {
  }

  lemma AnnouncedFiber(s: State, c: nat)
    requires SessionOk(s) && MayAnnounce(s, c) && s.callers[c].sub in s.fibers && FiberOk(s, s.callers[c].sub)
    ensures FiberOk(DoAnnounce(s, c, s.callers[c]), s.callers[c].sub)
  {
    var t, a := DoAnnounce(s, c, s.callers[c]), s.callers[c].sub;
    assert SteerPipe(t.shared, a, t.fibers[a], Mine(t, a)) == SteerPipe(s.shared, a, s.fibers[a], Mine(s, a));
    assert FollowPipe(t.shared, a, t.fibers[a], Mine(t, a)) == FollowPipe(s.shared, a, s.fibers[a], Mine(s, a));
  }

  lemma AnnounceKeepsOthers(s: State, c: nat, b: nat)
    requires SessionOk(s) && MayAnnounce(s, c) && b in s.fibers && b != s.callers[c].sub
    ensures SameInputs(s, DoAnnounce(s, c, s.callers[c]), b)
  {
  }

  lemma AnnounceKeepsCallers(s: State, c: nat)
    requires CallersOk(s) && MayAnnounce(s, c)
    ensures CallersOk(DoAnnounce(s, c, s.callers[c]))
  {
    var t := DoAnnounce(s, c, s.callers[c]);
    forall d | d in t.callers ensures SnapshotOk(t, t.callers[d]) && AwaitOk(t, t.callers[d]) {
      if d != c { assert SnapshotOk(s, s.callers[d]) && AwaitOk(s, s.callers[d]); }
    }
  }

  lemma AnnounceKeepsInv(s: State, c: nat)
    requires Inv(s) && MayAnnounce(s, c)
    ensures Inv(DoAnnounce(s, c, s.callers[c]))
  {
    var t := DoAnnounce(s, c, s.callers[c]);
    AnnounceKeepsGate(s, c);
    AnnounceKeepsActive(s, c);
    AnnounceKeepsSettled(s, c);
    AnnounceKeepsCallers(s, c);
    forall b | b in t.fibers ensures FiberOk(t, b) { AnnounceKeepsFiber(s, c, b); }
  }

  lemma AnnounceKeepsFiber(s: State, c: nat, b: nat)
    requires SessionOk(s) && AllFibersOk(s) && MayAnnounce(s, c) && b in s.fibers
    ensures b in DoAnnounce(s, c, s.callers[c]).fibers && FiberOk(DoAnnounce(s, c, s.callers[c]), b)
  {
    assert FiberOk(s, b);
    if b == s.callers[c].sub { AnnouncedFiber(s, c); }
    else { AnnounceKeepsOthers(s, c, b); FiberFrame(s, DoAnnounce(s, c, s.callers[c]), b); }
  }

  /** A caller that moves without touching the gate. */
  lemma PassKeepsInv(s: State, c: nat, k: Caller)
    requires Inv(s) && Passes(s, c, k, s.shared.gate)
    ensures Inv(At(s, c, k))
  {
    TurnKeepsInv(s, c, k, s.shared.gate);
    assert Gated(At(s, c, k), s.shared.gate) == At(s, c, k);
  }

  lemma StartKeepsInv(s: State, c: nat, k: Caller)
    requires Inv(s) && c in s.callers && k == s.callers[c] && k.Offering? && (k.at.Start? || k.at.Validated?)
    ensures Inv(DoInput(s, c, k))
  {
    var st := s.shared.state;
    if k.at.Start? {
      PassKeepsInv(s, c, if st.status.Running? && st.active.Some? then k.(at := Validated, sub := st.active.value)
                         else k.(at := Refused));
    } else if s.shared.gate.Free? {
      TurnKeepsInv(s, c, k.(at := Holding), ByCaller(c));
    }
  }

  /** What a caller that holds the gate does upon a check. */
  function Read(s: State, c: nat, k: Caller, passed: bool, next: Caller): State
    requires k.Offering?
  {
    if passed then At(s, c, next) else Gated(At(s, c, k.(at := Refused)), Free)
  }

  lemma ChecksRead(s: State, c: nat, k: Caller)
    requires k.Offering?
    ensures k.at.Holding? ==>
              var passed := s.shared.state.status.Running? && s.shared.state.active == Some(k.sub);
              DoInput(s, c, k) == Read(s, c, k, passed, k.(at := StillActive))
    ensures k.at.StillActive? ==>
              DoInput(s, c, k) == Read(s, c, k, Accepts(s.shared.state, k.kind), k.(at := Accepting))
  {
  }

  lemma ReadKeepsHeld(s: State, c: nat, k: Caller, passed: bool, next: Caller)
    requires Inv(s) && c in s.callers && k == s.callers[c] && k.Offering? && (k.at.Holding? || k.at.StillActive?)
    requires passed ==> Passes(s, c, next, s.shared.gate)
    ensures Inv(Read(s, c, k, passed, next))
  {
    if passed { PassKeepsInv(s, c, next); } else { TurnKeepsInv(s, c, k.(at := Refused), Free); }
  }

  lemma HoldingKeepsInv(s: State, c: nat, k: Caller)
    requires Inv(s) && c in s.callers && k == s.callers[c] && k.Offering? && k.at.Holding?
    ensures Inv(DoInput(s, c, k))
  {
    HoldingTurns(s, c, k);
    var passed := s.shared.state.status.Running? && s.shared.state.active == Some(k.sub);
    ReadKeepsHeld(s, c, k, passed, k.(at := StillActive));
    ChecksRead(s, c, k);
  }

  lemma HoldingTurns(s: State, c: nat, k: Caller)
    requires Shape(s) && GateOk(s) && c in s.callers && k == s.callers[c] && k.Offering? && k.at.Holding?
    ensures s.shared.state.active == Some(k.sub) ==> Passes(s, c, k.(at := StillActive), s.shared.gate)
  {
  }

  lemma StillActiveKeepsInv(s: State, c: nat, k: Caller)
    requires Inv(s) && c in s.callers && k == s.callers[c] && k.Offering? && k.at.StillActive?
    ensures Inv(DoInput(s, c, k))
  {
    StillActiveTurns(s, c, k);
    ReadKeepsHeld(s, c, k, Accepts(s.shared.state, k.kind), k.(at := Accepting));
    ChecksRead(s, c, k);
  }

  lemma StillActiveTurns(s: State, c: nat, k: Caller)
    requires GateOk(s) && HolderOk(s) && c in s.callers && k == s.callers[c] && k.Offering? && k.at.StillActive?
    ensures Accepts(s.shared.state, k.kind) ==> Passes(s, c, k.(at := Accepting), s.shared.gate)
  {
  }

  lemma InputKeepsInv(s: State, c: nat)
    requires Inv(s) && c in s.callers && s.callers[c].Offering?
    ensures Inv(DoInput(s, c, s.callers[c]))
  {
    var k := s.callers[c];
    match k.at {
      case Start => StartKeepsInv(s, c, k);
      case Validated => StartKeepsInv(s, c, k);
      case Holding => HoldingKeepsInv(s, c, k);
      case StillActive => StillActiveKeepsInv(s, c, k);
      case Accepting => OfferKeepsInv(s, c);
      case Offered => AnnounceKeepsInv(s, c);
      case Announced => TurnKeepsInv(s, c, k.(at := Accepted), Free);
      case Accepted =>
      case Refused =>
    }
  }

  /** A caller outside the gate that only reads. */
  lemma ReaderKeepsInv(s: State, c: nat, k: Caller)
    requires Inv(s) && !k.Offering? && (c in s.callers ==> !s.callers[c].Offering?)
    requires SnapshotOk(s, k) && AwaitOk(s, k)
    ensures Inv(At(s, c, k))
  {
    PassKeepsInv(s, c, k);
  }

  lemma SnapshotReads(s: State, c: nat)
    requires Shape(s) && CallersOk(s) && c in s.callers && s.callers[c].Snapshotting?
    ensures var t := DoSnapshot(s, c, s.callers[c]);
            t == At(s, c, t.callers[c]) && t.callers[c].Snapshotting? && SnapshotOk(s, t.callers[c])
  {
    assert SnapshotOk(s, s.callers[c]);
    assert s.callers == s.callers[c := s.callers[c]];
  }

  lemma AwaitReads(s: State, c: nat)
    requires Shape(s) && ActiveOk(s) && SettledOk(s) && CallersOk(s) && c in s.callers && s.callers[c].Awaiting?
    ensures var t := DoAwait(s, c, s.callers[c]);
            t == At(s, c, t.callers[c]) && t.callers[c].Awaiting? && AwaitOk(s, t.callers[c])
  {
    assert AwaitOk(s, s.callers[c]);
    assert s.callers == s.callers[c := s.callers[c]];
  }

  lemma SnapshotKeepsInv(s: State, c: nat)
    requires Inv(s) && c in s.callers && s.callers[c].Snapshotting?
    ensures Inv(DoSnapshot(s, c, s.callers[c]))
  {
    SnapshotReads(s, c);
    ReaderKeepsInv(s, c, DoSnapshot(s, c, s.callers[c]).callers[c]);
  }

  lemma AwaitKeepsInv(s: State, c: nat)
    requires Inv(s) && c in s.callers && s.callers[c].Awaiting?
    ensures Inv(DoAwait(s, c, s.callers[c]))
  {
    AwaitReads(s, c);
    ReaderKeepsInv(s, c, DoAwait(s, c, s.callers[c]).callers[c]);
  }

  // -------------------------------------------------------------- every run

  lemma StepInv(s: State, act: Act, loop: AgentLoop.Loop)
    requires Inv(s)
    ensures Inv(Step(s, act, loop))
  {
    if act.Call? { CallStepInv(s, act, loop); }
    else if act.Proceed? { ProceedStepInv(s, act, loop); }
    else if act.Claim? || act.CloseSession? { SessionStepInv(s, act, loop); }
    else if act.Advance? { AdvanceStepInv(s, act, loop); }
    else { AdmitStepInv(s, act, loop); }
  }

  lemma CallStepInv(s: State, act: Act, loop: AgentLoop.Loop)
    requires Inv(s) && act.Call?
    ensures Inv(Step(s, act, loop))
  {
    CallKeepsInv(s, act.caller, act.what);
  }

  lemma ProceedStepInv(s: State, act: Act, loop: AgentLoop.Loop)
    requires Inv(s) && act.Proceed?
    ensures Inv(Step(s, act, loop))
  {
    if act.caller in s.callers { ProceedInv(s, act.caller, s.callers[act.caller]); }
  }

  lemma SessionStepInv(s: State, act: Act, loop: AgentLoop.Loop)
    requires Inv(s) && (act.Claim? || act.CloseSession?)
    ensures Inv(Step(s, act, loop))
  {
    if act.Claim? { ClaimKeepsInv(s, act.body); } else { CloseKeepsInv(s); }
  }

  lemma AdvanceStepInv(s: State, act: Act, loop: AgentLoop.Loop)
    requires Inv(s) && act.Advance?
    ensures Inv(Step(s, act, loop))
  {
    if act.sub in s.fibers { AdvancedInv(s, act.sub, act.choice, loop); }
  }

  lemma AdmitStepInv(s: State, act: Act, loop: AgentLoop.Loop)
    requires Inv(s) && (act.Admit? || act.Abort?)
    ensures Inv(Step(s, act, loop))
  {
    if act.sub in s.fibers { AdmittedInv(s, act.sub); }
  }

  lemma AdmittedInv(s: State, a: nat)
    requires Inv(s) && a in s.fibers
    ensures Inv(Committed(s, a, DoAdmit(s.shared, a, s.fibers[a])))
    ensures Abortable(s.fibers[a]) ==> Inv(Committed(s, a, Leave(s.shared, a, s.fibers[a])))
  {
    FiberStepsKeepInv(s, a, None, AgentLoop.Decided(AgentLoop.Continue));
  }

  lemma ProceedInv(s: State, c: nat, k: Caller)
    requires Inv(s) && c in s.callers && k == s.callers[c]
    ensures Inv(DoProceed(s, c, k))
  {
    if k.Offering? { InputKeepsInv(s, c); }
    else if k.Snapshotting? { SnapshotKeepsInv(s, c); }
    else { AwaitKeepsInv(s, c); }
  }

  lemma AdvancedInv(s: State, a: nat, ch: Choice, loop: AgentLoop.Loop)
    requires Inv(s) && a in s.fibers
    ensures Inv(Advanced(s, a, OutcomeOf(s.fibers[a], ch), ch, loop))
  {
    var f := s.fibers[a];
    FiberStepsKeepInv(s, a, OutcomeOf(f, ch), AgentLoop.Decide(loop, Asked(f, ch)).verdict);
  }

  lemma CallKeepsInv(s: State, c: nat, k: Caller)
    requires Inv(s)
    ensures Inv(DoCall(s, c, k))
  {
    if MayCall(s, c, k) {
      CallTurns(s, c, k);
      PassKeepsInv(s, c, k);
    }
  }

  lemma CallTurns(s: State, c: nat, k: Caller)
    requires GateOk(s) && MayCall(s, c, k)
    ensures Passes(s, c, k, s.shared.gate)
  {
  }

  /** Every state of every schedule is in order. */
  lemma {:induction false} Always(seed: seq<nat>, acts: seq<Act>, loop: AgentLoop.Loop)
    ensures Inv(After(seed, acts, loop))
    decreases |acts|
  {
    if acts != [] {
      Always(seed, acts[..|acts| - 1], loop);
      StepInv(After(seed, acts[..|acts| - 1], loop), acts[|acts| - 1], loop);
    }
  }
}
