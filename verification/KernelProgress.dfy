/**
 Which submission the live progress counter belongs to, and what a caller that reads it reports
 (src/AgentSession.ts:602-612, 669-684, 945-962, 974-996).
 */
module KernelProgress {
  import opened Base
  import opened Kernel
  import opened KernelFiber
  import opened KernelInvariant
  import AgentLoop
  import ToolBatch

  // ----------------------------------------------- whose counter it is

  /** The live counter is that of the last submission whose admission has zeroed it. */
  ghost predicate OwnerOk(s: State) {
    var n := s.shared.state.count;
    && (forall a | 1 <= a <= n :: a in s.fibers)
    && (forall a | a in s.fibers && a < n :: !s.fibers[a].admission.Claimed?)
    && s.shared.progress.owner == (if n in s.fibers && s.fibers[n].admission.Claimed? then n - 1 else n)
  }

  lemma AdvanceKeepsOwner(sh: Shared, a: nat, f: Fiber, outcome: Option<ToolBatch.Work>, verdict: AgentLoop.Verdict)
    ensures var r := DoAdvance(sh, a, f, outcome, verdict);
            r.shared.progress.owner == sh.progress.owner && r.shared.state.count == sh.state.count
            && r.fiber.admission == f.admission
  {
    match f.pc {
      case InSubmission(q) => SubmissionKeepsOwner(sh, a, f, q);
      case _ =>
    }
  }

  lemma SubmissionKeepsOwner(sh: Shared, a: nat, f: Fiber, q: SubmissionPC)
    ensures var r := AdvanceSubmission(sh, a, f, q);
            r.shared.progress.owner == sh.progress.owner && r.shared.state.count == sh.state.count
            && r.fiber.admission == f.admission
  {
  }

  /** A caller moves no counter and no admission. */
  predicate SameOwners(s: State, t: State) {
    && t.shared.progress == s.shared.progress && t.shared.state == s.shared.state
    && t.fibers.Keys == s.fibers.Keys && forall a | a in s.fibers :: t.fibers[a].admission == s.fibers[a].admission
  }

  lemma SameKeepsOwner(s: State, t: State)
    requires OwnerOk(s) && SameOwners(s, t)
    ensures OwnerOk(t)
  {
  }

  lemma InputLeavesOwners(s: State, c: nat, k: Caller)
    requires k.Offering?
    ensures SameOwners(s, DoInput(s, c, k))
  {
  }

  lemma ProceedKeepsOwner(s: State, c: nat, loop: AgentLoop.Loop)
    requires OwnerOk(s)
    ensures OwnerOk(Step(s, Proceed(c), loop))
  {
    if c in s.callers && s.callers[c].Offering? { InputLeavesOwners(s, c, s.callers[c]); }
    SameKeepsOwner(s, Step(s, Proceed(c), loop));
  }

  /** An idle session's last submission has long left its admission. */
  predicate Quiet(s: State) {
    s.shared.state.status.Idle? && s.shared.state.count in s.fibers ==> Registered(s.fibers[s.shared.state.count])
  }

  lemma InvQuiet(s: State)
    requires Shape(s) && AllFibersOk(s)
    ensures Quiet(s)
  {
    if s.shared.state.count in s.fibers { assert FiberOk(s, s.shared.state.count); }
  }

  lemma ClaimKeepsOwner(s: State, body: nat)
    requires OwnerOk(s) && Quiet(s)
    ensures OwnerOk(DoClaim(s, body))
  {
  }

  lemma AdmitKeepsOwner(s: State, a: nat)
    requires OwnerOk(s) && a in s.fibers && a <= s.shared.state.count
    ensures OwnerOk(Committed(s, a, DoAdmit(s.shared, a, s.fibers[a])))
  {
  }

  lemma AdvancedKeepsOwner(s: State, a: nat, r: Stepped)
    requires OwnerOk(s) && a in s.fibers && r.shared.progress.owner == s.shared.progress.owner
    requires r.shared.state.count == s.shared.state.count && r.fiber.admission == s.fibers[a].admission
    ensures OwnerOk(Committed(s, a, r))
  {
  }

  lemma StepKeepsOwner(s: State, act: Act, loop: AgentLoop.Loop)
    requires OwnerOk(s) && Quiet(s) && (forall a | a in s.fibers :: a <= s.shared.state.count)
    ensures OwnerOk(Step(s, act, loop))
  {
    match act {
      case Advance(a, ch) =>
        if a in s.fibers {
          var outcome := OutcomeOf(s.fibers[a], ch);
          var verdict := AgentLoop.Decide(loop, Asked(s.fibers[a], ch)).verdict;
          AdvanceKeepsOwner(s.shared, a, s.fibers[a], outcome, verdict);
          AdvancedKeepsOwner(s, a, DoAdvance(s.shared, a, s.fibers[a], outcome, verdict));
        }
      case Abort(a) => if a in s.fibers { AdvancedKeepsOwner(s, a, Leave(s.shared, a, s.fibers[a])); }
      case Proceed(c) => ProceedKeepsOwner(s, c, loop);
      case Claim(body) => ClaimKeepsOwner(s, body);
      case Admit(a) => if a in s.fibers { AdmitKeepsOwner(s, a); }
      case _ =>
    }
  }

  lemma {:induction false} AlwaysOwned(seed: seq<nat>, acts: seq<Act>, loop: AgentLoop.Loop)
    ensures OwnerOk(After(seed, acts, loop))
    decreases |acts|
  {
    if acts != [] {
      AlwaysOwned(seed, acts[..|acts| - 1], loop);
      Always(seed, acts[..|acts| - 1], loop);
      InvQuiet(After(seed, acts[..|acts| - 1], loop));
      StepKeepsOwner(After(seed, acts[..|acts| - 1], loop), acts[|acts| - 1], loop);
    }
  }

  lemma OwnedIff(s: State, a: nat)
    requires OwnerOk(s) && Shape(s)
    ensures a in s.fibers && !s.fibers[a].admission.Claimed? ==>
              (s.shared.progress.owner == a
               <==> forall b | b in s.fibers && a < b :: s.fibers[b].admission.Claimed?)
  {
    var n := s.shared.state.count;
    if a in s.fibers && a < n { assert n in s.fibers && a + 1 in s.fibers; }
  }

  // ------------------------------------- the live counter against the settled copy

  /** While no successor has zeroed it, the live counter is what was settled. */
  predicate CopyOk(sh: Shared) {
    sh.settledFiber.Some? && sh.progress.owner == sh.settledFiber.value.sub ==>
      sh.progress == sh.settledFiber.value.progress
  }

  lemma ReleaseKeepsCopy(sh: Shared, a: nat, f: Fiber)
    requires f.pc.InRelease? && CopyOk(sh) && (Live(f.pc) ==> TracksOk(sh, Turns(sh.history, a), a, f))
    ensures CopyOk(AdvanceRelease(sh, a, f, f.pc.release).shared)
  {
  }

  /** Until its release a fibre counts only for itself, and is not the one settled. */
  lemma BodyKeepsCopy(sh: Shared, a: nat, f: Fiber, outcome: Option<ToolBatch.Work>, verdict: AgentLoop.Verdict)
    requires f.pc.InSubmission? || f.pc.InRun? || f.pc.InSteering?
    ensures var r := DoAdvance(sh, a, f, outcome, verdict).shared;
            r.settledFiber == sh.settledFiber && r.progress.owner == sh.progress.owner
  {
    AdvanceKeepsOwner(sh, a, f, outcome, verdict);
  }

  lemma AdvanceKeepsCopy(sh: Shared, a: nat, f: Fiber, outcome: Option<ToolBatch.Work>, verdict: AgentLoop.Verdict)
    requires CopyOk(sh) && (Live(f.pc) ==> TracksOk(sh, Turns(sh.history, a), a, f) && LocalsOk(f))
    requires Live(f.pc) && !PastSettle(f.pc) ==> sh.settledFiber.Some? ==> sh.settledFiber.value.sub != a
    ensures CopyOk(DoAdvance(sh, a, f, outcome, verdict).shared)
  {
    if f.pc.InRelease? { ReleaseKeepsCopy(sh, a, f); }
    else if !f.pc.Unborn? && !f.pc.Exited? { BodyKeepsCopy(sh, a, f, outcome, verdict); }
  }

  lemma AdmitKeepsCopy(sh: Shared, a: nat, f: Fiber)
    requires CopyOk(sh) && (f.admission.Claimed? ==> sh.settledFiber.Some? ==> sh.settledFiber.value.sub != a)
    ensures CopyOk(DoAdmit(sh, a, f).shared) && CopyOk(Leave(sh, a, f).shared)
  {
  }

  lemma OthersKeepCopy(s: State, act: Act, loop: AgentLoop.Loop)
    requires CopyOk(s.shared) && !act.Advance? && !act.Admit? && !act.Abort?
    ensures CopyOk(Step(s, act, loop).shared)
  {
  }

  /** The settled submission is past its own settling. */
  lemma SettledIsPast(s: State, a: nat)
    requires Inv(s) && a in s.fibers
    ensures !PastSettle(s.fibers[a].pc) ==> s.shared.settledFiber.Some? ==> s.shared.settledFiber.value.sub != a
    ensures s.fibers[a].admission.Claimed? ==> !PastSettle(s.fibers[a].pc)
    ensures Live(s.fibers[a].pc) ==>
              TracksOk(s.shared, Turns(s.shared.history, a), a, s.fibers[a]) && LocalsOk(s.fibers[a])
  {
    assert FiberOk(s, a);
  }

  lemma FibersKeepCopy(s: State, a: nat, outcome: Option<ToolBatch.Work>, verdict: AgentLoop.Verdict)
    requires Inv(s) && CopyOk(s.shared) && a in s.fibers
    ensures CopyOk(DoAdvance(s.shared, a, s.fibers[a], outcome, verdict).shared)
    ensures CopyOk(DoAdmit(s.shared, a, s.fibers[a]).shared) && CopyOk(Leave(s.shared, a, s.fibers[a]).shared)
  {
    SettledIsPast(s, a);
    AdvanceKeepsCopy(s.shared, a, s.fibers[a], outcome, verdict);
    AdmitKeepsCopy(s.shared, a, s.fibers[a]);
  }

  lemma StepKeepsCopy(s: State, act: Act, loop: AgentLoop.Loop)
    requires Inv(s) && CopyOk(s.shared)
    ensures CopyOk(Step(s, act, loop).shared)
  {
    match act {
      case Advance(a, ch) =>
        if a in s.fibers {
          FibersKeepCopy(s, a, OutcomeOf(s.fibers[a], ch),
                         AgentLoop.Decide(loop, Asked(s.fibers[a], ch)).verdict);
        }
      case Admit(a) => if a in s.fibers { FibersKeepCopy(s, a, None, AgentLoop.Decided(AgentLoop.Continue)); }
      case Abort(a) => if a in s.fibers { FibersKeepCopy(s, a, None, AgentLoop.Decided(AgentLoop.Continue)); }
      case _ => OthersKeepCopy(s, act, loop);
    }
  }

  lemma {:induction false} AlwaysCopied(seed: seq<nat>, acts: seq<Act>, loop: AgentLoop.Loop)
    ensures CopyOk(After(seed, acts, loop).shared)
    decreases |acts|
  {
    if acts != [] {
      AlwaysCopied(seed, acts[..|acts| - 1], loop);
      Always(seed, acts[..|acts| - 1], loop);
      StepKeepsCopy(After(seed, acts[..|acts| - 1], loop), acts[|acts| - 1], loop);
    }
  }

  /** No later submission's admission has zeroed the counter. */
  ghost predicate NoneZeroedAfter(s: State, a: nat) {
    forall b | b in s.fibers && a < b :: s.fibers[b].admission.Claimed?
  }

  /**
   MAIN: what a caller that joined a submission live reports of its interruption is that submission's own
   progress -- short of its last committed turn at most -- exactly until a later admission has zeroed the
   counter. The settled copy has no such condition: see `AwaitWindow`.
   */
  lemma LiveReadIsOwnIff(seed: seq<nat>, acts: seq<Act>, loop: AgentLoop.Loop, c: nat)
    ensures var s := After(seed, acts, loop);
            var t := Step(s, Proceed(c), loop);
            c in s.callers && s.callers[c].Awaiting? && s.callers[c].found.FoundLive? && t.callers[c].found.Landed? ==>
              var a, p := s.callers[c].sub, t.callers[c].found.progress;
              && a in s.fibers
              && (NoneZeroedAfter(s, a) ==> Reports(p, Turns(s.shared.history, a), a, s.fibers[a]))
              && (!NoneZeroedAfter(s, a) ==> p.owner > a)
  {
    AlwaysOwned(seed, acts, loop);
    AlwaysCopied(seed, acts, loop);
    Always(seed, acts, loop);
    var s := After(seed, acts, loop);
    if c in s.callers && s.callers[c].Awaiting? && s.callers[c].found.FoundLive? {
      LandedReads(s, c, loop);
      if s.callers[c].sub in s.fibers { ExitedProgress(s, s.callers[c].sub); }
    }
  }

  lemma LandedReads(s: State, c: nat, loop: AgentLoop.Loop)
    requires c in s.callers && s.callers[c].Awaiting? && s.callers[c].found.FoundLive?
    ensures var t := Step(s, Proceed(c), loop);
            c in t.callers && t.callers[c].Awaiting?
            && (t.callers[c].found.Landed? ==>
                  && s.callers[c].sub in s.fibers && s.fibers[s.callers[c].sub].pc.Exited?
                  && t.callers[c].found.progress == s.shared.progress)
  {
  }

  lemma ExitedProgress(s: State, a: nat)
    requires Inv(s) && OwnerOk(s) && CopyOk(s.shared) && a in s.fibers
    ensures s.fibers[a].pc.Exited? ==>
              if NoneZeroedAfter(s, a) then Reports(s.shared.progress, Turns(s.shared.history, a), a, s.fibers[a])
              else s.shared.progress.owner > a
  {
    var n := s.shared.state.count;
    assert FiberOk(s, a);
    if s.fibers[a].pc.Exited? {
      OwnedIff(s, a);
      var last := s.shared.settledFiber.value.sub;
      assert FiberOk(s, last);
    }
  }

  // --------------------------------------------------- a schedule that misreads

  lemma Then(seed: seq<nat>, acts: seq<Act>, act: Act, loop: AgentLoop.Loop) returns (more: seq<Act>)
    ensures After(seed, more, loop) == Step(After(seed, acts, loop), act, loop)
  {
    more := acts + [act];
    assert more[..|more| - 1] == acts;
  }

  /** The first submission steps, anywhere its step asks neither the model nor the loop. */
  lemma Tick(seed: seq<nat>, acts: seq<Act>, at: Stepped, callers: map<nat, Caller>, loop: AgentLoop.Loop)
    returns (more: seq<Act>, next: Stepped)
    requires After(seed, acts, loop) == State(at.shared, map[1 := at.fiber], callers)
    requires at.fiber.pc != InRun(Think) && at.fiber.pc != InRun(Decide)
    ensures next == DoAdvance(at.shared, 1, at.fiber, None, AgentLoop.Decided(AgentLoop.Continue))
    ensures After(seed, more, loop) == State(next.shared, map[1 := next.fiber], callers)
  {
    more := Then(seed, acts, Advance(1, NO_CALLS), loop);
    next := DoAdvance(at.shared, 1, at.fiber, None, AgentLoop.Decided(AgentLoop.Continue));
    assert map[1 := at.fiber][1 := next.fiber] == map[1 := next.fiber];
  }

  /** A submission admitted. */
  lemma Introduced(seed: seq<nat>, loop: AgentLoop.Loop) returns (acts: seq<Act>, at: Stepped)
    ensures After(seed, acts, loop) == State(at.shared, map[1 := at.fiber], map[])
    ensures at.shared.state == SessionState(Running, 1, Some(1), true, true) && at.shared.gate == Free
    ensures at.shared.activeFiber == Some(1) && at.shared.progress == Progress(1, 0, 0)
    ensures at.fiber == NewFiber(7).(admission := Receipted, pc := InSubmission(Waiting))
  {
    acts := Then(seed, [], Claim(7), loop);
    var claimed := Initially(seed).shared.(state := SessionState(Running, 1, Some(1), true, true));
    assert After(seed, acts, loop) == State(claimed, map[1 := NewFiber(7)], map[]);
    acts := Then(seed, acts, Admit(1), loop);
    acts := Then(seed, acts, Admit(1), loop);
    acts := Then(seed, acts, Admit(1), loop);
    acts := Then(seed, acts, Admit(1), loop);
    at := Stepped(claimed.(progress := Progress(1, 0, 0), activeFiber := Some(1)),
                  NewFiber(7).(admission := Receipted, pc := InSubmission(Waiting)));
    assert After(seed, acts, loop).fibers == map[1 := at.fiber];
  }

  /** Started on its first run. */
  lemma Started(seed: seq<nat>, loop: AgentLoop.Loop) returns (acts: seq<Act>, at: Stepped)
    ensures After(seed, acts, loop) == State(at.shared, map[1 := at.fiber], map[])
    ensures at.shared.state == SessionState(Running, 1, Some(1), true, true) && at.shared.gate == Free
    ensures at.shared.activeFiber == Some(1) && at.shared.progress == Progress(1, 1, 0)
    ensures at.fiber.admission == Receipted && at.fiber.pc == InRun(StartRun) && !at.fiber.exit.completed
  {
    acts, at := Introduced(seed, loop);
    acts, at := Tick(seed, acts, at, map[], loop);
    acts, at := Tick(seed, acts, at, map[], loop);
    acts, at := Tick(seed, acts, at, map[], loop);
    acts, at := Tick(seed, acts, at, map[], loop);
  }

  const JOINED := map[0 := Awaiting(1, FoundLive)]

  /** A waiter joins it live, and it is interrupted. */
  lemma Interrupted(seed: seq<nat>, loop: AgentLoop.Loop) returns (acts: seq<Act>, at: Stepped)
    ensures After(seed, acts, loop) == State(at.shared, map[1 := at.fiber], JOINED)
    ensures at.shared.state == SessionState(Running, 1, Some(1), true, true) && at.shared.gate == Free
    ensures at.shared.activeFiber == Some(1) && at.shared.progress == Progress(1, 1, 0)
    ensures at.fiber.admission == Receipted && at.fiber.pc == InRelease(ReadFiber) && !at.fiber.exit.completed
  {
    acts, at := Started(seed, loop);
    acts := Then(seed, acts, Call(0, Awaiting(1, First)), loop);
    acts := Then(seed, acts, Proceed(0), loop);
    assert After(seed, acts, loop).callers == JOINED;
    acts := Then(seed, acts, Abort(1), loop);
    at := Leave(at.shared, 1, at.fiber);
    assert After(seed, acts, loop).fibers == map[1 := at.fiber];
  }

  /** Its progress is settled. */
  lemma Settling(seed: seq<nat>, loop: AgentLoop.Loop) returns (acts: seq<Act>, at: Stepped)
    ensures After(seed, acts, loop) == State(at.shared, map[1 := at.fiber], JOINED)
    ensures at.shared.state == SessionState(Running, 1, Some(1), true, true) && at.shared.gate == Free
    ensures at.fiber.pc == InRelease(WaitGate) && !at.fiber.exit.completed && at.fiber.admission == Receipted
    ensures at.shared.settledFiber == Some(Settled(1, Progress(1, 1, 0)))
  {
    acts, at := Interrupted(seed, loop);
    acts, at := Tick(seed, acts, at, JOINED, loop);
    acts, at := Tick(seed, acts, at, JOINED, loop);
    acts, at := Tick(seed, acts, at, JOINED, loop);
    acts, at := Tick(seed, acts, at, JOINED, loop);
  }

  /** The session is idle, under the release's permit. */
  lemma Idled(seed: seq<nat>, loop: AgentLoop.Loop) returns (acts: seq<Act>, at: Stepped)
    ensures After(seed, acts, loop) == State(at.shared, map[1 := at.fiber], JOINED)
    ensures at.shared.state == SessionState(Idle, 1, None, false, false) && at.shared.gate == BySub(1)
    ensures at.fiber.pc == InRelease(DropSteering) && !at.fiber.exit.completed && at.fiber.admission == Receipted
    ensures at.shared.settledFiber == Some(Settled(1, Progress(1, 1, 0)))
  {
    acts, at := Settling(seed, loop);
    acts, at := Tick(seed, acts, at, JOINED, loop);
    acts, at := Tick(seed, acts, at, JOINED, loop);
  }

  /** And it is released. */
  lemma Released(seed: seq<nat>, loop: AgentLoop.Loop) returns (acts: seq<Act>, at: Stepped)
    ensures After(seed, acts, loop) == State(at.shared, map[1 := at.fiber], JOINED)
    ensures at.shared.state == SessionState(Idle, 1, None, false, false)
    ensures at.fiber.pc == Exited && !at.fiber.exit.completed && at.fiber.admission == Receipted
    ensures at.shared.settledFiber == Some(Settled(1, Progress(1, 1, 0)))
  {
    acts, at := Idled(seed, loop);
    acts, at := Tick(seed, acts, at, JOINED, loop);
    acts, at := Tick(seed, acts, at, JOINED, loop);
    acts, at := Tick(seed, acts, at, JOINED, loop);
  }

  /** A caller reports no run of submission 1, which was interrupted during its first. */
  ghost predicate Misreports(s: State) {
    && 0 in s.callers && s.callers[0] == Awaiting(1, Landed(Progress(2, 0, 0)))
    && s.shared.settledFiber == Some(Settled(1, Progress(1, 1, 0)))
  }

  /** Under every loop and over every seed, some schedule has a live reader report its successor's zeroes. */
  lemma LiveReadMisreports(seed: seq<nat>, loop: AgentLoop.Loop)
    ensures exists acts: seq<Act> :: Misreports(After(seed, acts, loop))
  {
    var acts, at := Released(seed, loop);
    acts := Then(seed, acts, Claim(8), loop);
    acts := Then(seed, acts, Admit(2), loop);
    assert After(seed, acts, loop).shared.progress == Progress(2, 0, 0);
    acts := Then(seed, acts, Proceed(0), loop);
    assert Misreports(After(seed, acts, loop));
  }
}
