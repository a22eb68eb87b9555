/** That the one-permit gate never wedges the session: while a submission is unfinished, somebody can step. */
module KernelLiveness {
  import opened Base
  import opened Kernel
  import opened KernelFiber
  import opened KernelInvariant
  import AgentLoop
  import ToolBatch

  predicate WantsGate(pc: PC) {
    match pc
    case InSubmission(q) => q.PullWait? || q.LastWait?
    case InRun(q) => q.CloseWait?
    case InSteering(_, q) => q.SteerWait?
    case InRelease(q) => q.WaitGate?
    case _ => false
  }

  predicate AwaitsReceipt(f: Fiber) {
    f.pc.Unborn? || (f.pc == InSubmission(Waiting) && !f.admission.Receipted?)
  }

  lemma SubmissionSteps(sh: Shared, a: nat, f: Fiber)
    requires f.pc.InSubmission? && LocalsOk(f) && !AwaitsReceipt(f) && (WantsGate(f.pc) ==> sh.gate.Free?)
    ensures AdvanceSubmission(sh, a, f, f.pc.submission).fiber.pc != f.pc
  {
  }

  lemma RunSteps(sh: Shared, a: nat, f: Fiber, outcome: Option<ToolBatch.Work>, verdict: AgentLoop.Verdict)
    requires f.pc.InRun? && LocalsOk(f) && (WantsGate(f.pc) ==> sh.gate.Free?)
    ensures AdvanceRun(sh, a, f, f.pc.run, outcome, verdict).fiber.pc != f.pc
  {
  }

  lemma SteeringSteps(sh: Shared, a: nat, f: Fiber)
    requires f.pc.InSteering? && (WantsGate(f.pc) ==> sh.gate.Free?)
    ensures var r := AdvanceSteering(sh, a, f, f.pc.late, f.pc.steering); r.fiber.pc != f.pc || r.fiber.input != f.input
  {
  }

  /** A fibre that is not waiting, or waits for a gate that is free, moves. */
  lemma FiberSteps(sh: Shared, a: nat, f: Fiber, outcome: Option<ToolBatch.Work>, verdict: AgentLoop.Verdict)
    requires Live(f.pc) ==> LocalsOk(f)
    requires !f.pc.Exited? && !AwaitsReceipt(f) && (WantsGate(f.pc) ==> sh.gate.Free?)
    ensures DoAdvance(sh, a, f, outcome, verdict).fiber != f
  {
    match f.pc {
      case InSubmission(_) => SubmissionSteps(sh, a, f);
      case InSteering(_, _) => SteeringSteps(sh, a, f);
      case InRun(_) => RunSteps(sh, a, f, outcome, verdict);
      case _ =>
    }
  }

  /** A step that starts nothing new and interrupts nothing. */
  predicate Own(act: Act) {
    act.Admit? || act.Advance? || act.Proceed?
  }

  ghost predicate CanMove(s: State, loop: AgentLoop.Loop) {
    exists act: Act :: Own(act) && Step(s, act, loop) != s
  }

  lemma FiberMoves(s: State, a: nat, loop: AgentLoop.Loop)
    requires Shape(s) && ActiveOk(s) && a in s.fibers
    requires var f := s.fibers[a]; !f.pc.Exited? && !AwaitsReceipt(f) && (WantsGate(f.pc) ==> s.shared.gate.Free?)
    ensures CanMove(s, loop)
  {
    var f := s.fibers[a];
    var outcome, verdict := OutcomeOf(f, NO_CALLS), AgentLoop.Decide(loop, Asked(f, NO_CALLS)).verdict;
    FiberSteps(s.shared, a, f, outcome, verdict);
    assert Step(s, Advance(a, NO_CALLS), loop).fibers[a] != f;
    assert Own(Advance(a, NO_CALLS));
  }

  lemma AdmissionMoves(s: State, a: nat, loop: AgentLoop.Loop)
    requires a in s.fibers && AwaitsReceipt(s.fibers[a]) && FiberOk(s, a) && ActiveOk(s) && Shape(s)
    ensures CanMove(s, loop)
  {
    assert Step(s, Admit(a), loop).fibers[a].admission != s.fibers[a].admission;
    assert Own(Admit(a));
  }

  /** A caller that holds the gate goes on to give it back. */
  lemma HolderMoves(s: State, c: nat, loop: AgentLoop.Loop)
    requires GateOk(s) && HolderOk(s) && s.shared.gate == ByCaller(c)
    ensures CanMove(s, loop)
  {
    assert c in s.callers && CallerHoldsGate(s.callers[c]);
    assert Step(s, Proceed(c), loop).callers[c] != s.callers[c];
    assert Own(Proceed(c));
  }

  /** Whoever holds the gate does not wait for it. */
  lemma GateMoves(s: State, loop: AgentLoop.Loop)
    requires Shape(s) && GateOk(s) && HolderOk(s) && ActiveOk(s) && !s.shared.gate.Free?
    ensures CanMove(s, loop)
  {
    if s.shared.gate.ByCaller? {
      HolderMoves(s, s.shared.gate.caller, loop);
    } else {
      var b := s.shared.gate.sub;
      assert GateHeld(s.shared, b, s.fibers[b]);
      FiberMoves(s, b, loop);
    }
  }

  /**
   MAIN: deadlock freedom. In every state of every schedule, while any submission has not finished its release,
   some fibre or caller already there can step -- no new prompt, steer or interruption is needed.
   */
  lemma NeverWedged(seed: seq<nat>, acts: seq<Act>, loop: AgentLoop.Loop, a: nat)
    ensures var s := After(seed, acts, loop); a in s.fibers && !s.fibers[a].pc.Exited? ==> CanMove(s, loop)
  {
    Always(seed, acts, loop);
    var s := After(seed, acts, loop);
    if a in s.fibers && !s.fibers[a].pc.Exited? { UnfinishedMoves(s, a, loop); }
  }

  lemma UnfinishedMoves(s: State, a: nat, loop: AgentLoop.Loop)
    requires Inv(s) && a in s.fibers && !s.fibers[a].pc.Exited?
    ensures CanMove(s, loop)
  {
    assert FiberOk(s, a);
    if AwaitsReceipt(s.fibers[a]) { AdmissionMoves(s, a, loop); }
    else if WantsGate(s.fibers[a].pc) && !s.shared.gate.Free? { GateMoves(s, loop); }
    else { FiberMoves(s, a, loop); }
  }
}
