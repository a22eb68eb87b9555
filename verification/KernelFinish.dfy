/**
 That every submission can finish: from wherever a schedule has led, its own fibre's and its callers' next steps
 reach the end of its release, with nothing interrupted, nothing claimed and nobody new.
 */
module KernelFinish {
  import opened Base
  import opened Kernel
  import opened KernelAlone
  import opened KernelFiber
  import opened KernelInvariant
  import opened KernelLiveness
  import AgentLoop
  import ToolBatch
  import ToolCall

  const TWICE := ToolCall.Call("x", "x", false)

  /** A model that names one id twice: its turn fails, and its fibre goes to its release. */
  const FAILING :=
    Choice(NO_CALLS.batch.(response := [TWICE, TWICE]), 0.0, false, 0)

  lemma FailingFails(f: Fiber)
    ensures OutcomeOf(f, FAILING).None?
  {
    var calls := ToolBatch.Outstanding([TWICE, TWICE]);
    assert [TWICE, TWICE][1..] == [TWICE] && [TWICE][1..] == [];
    assert ToolBatch.Outstanding([TWICE]) == [TWICE] + ToolBatch.Outstanding([]) == [TWICE];
    assert calls == [TWICE, TWICE];
    assert !ToolBatch.Distinct(calls) by { assert calls[0].id == calls[1].id; }
  }

  // ----------------------------------------------------------- how far it has to go

  function SubmissionRank(pc: SubmissionPC): nat {
    match pc
    case Waiting => 21
    case Head => 20
    case Commit => 19
    case CountRun => 18
    case PullCheck => 31
    case PullWait => 30
    case PullDrain => 29
    case PullUnlock => 28
    case CloseCheck => 27
    case LastWait => 26
    case LastDrain => 25
    case LastUnlock => 24
    case Reopen => 23
    case Shift => 22
    case ShiftOpen => 21
  }

  function RunRank(pc: RunPC): nat {
    match pc
    case StartRun => 17
    case StartTurn => 12
    case Derive => 11
    case Think => 10
    case CommitTurn => 41
    case Record => 40
    case Decide => 39
    case CloseWait => 38
    case CloseFlag => 37
    case CloseUnlock => 36
  }

  function SteerRank(late: bool, pc: SteerPC): nat {
    var unlock := if late then 32 else 13;
    match pc
    case SteerUnlock => unlock
    case SteerCommit => unlock + 1
    case SteerDrain => unlock + 2
    case SteerWait => unlock + 3
  }

  function ReleaseRank(pc: ReleasePC): nat {
    match pc
    case ReadFiber => 9
    case ReadProgress => 8
    case Settle => 7
    case ClearFiber => 6
    case WaitGate => 5
    case SetIdle => 4
    case DropSteering => 3
    case DropFollowUps => 2
    case OpenGate => 1
  }

  /** An upper bound on the steps left to a fibre whose next turn fails, with what is queued and taken to commit. */
  function StepsLeft(sh: Shared, f: Fiber): nat {
    match f.pc
    case Unborn => 22 + |sh.steering|
    case InSubmission(q) => SubmissionRank(q) + |sh.steering|
    case InRun(q) => RunRank(q) + |sh.steering|
    case InSteering(late, q) => SteerRank(late, q) + |sh.steering| + (if q.SteerCommit? then |f.input.batch| else 0)
    case InRelease(q) => ReleaseRank(q)
    case Exited => 0
  }

  lemma SubmissionNears(sh: Shared, a: nat, f: Fiber)
    requires f.pc.InSubmission? && LocalsOk(f) && !AwaitsReceipt(f) && (WantsGate(f.pc) ==> sh.gate.Free?)
    ensures var r := AdvanceSubmission(sh, a, f, f.pc.submission); StepsLeft(r.shared, r.fiber) < StepsLeft(sh, f)
  {
  }

  lemma RunNears(sh: Shared, a: nat, f: Fiber, verdict: AgentLoop.Verdict)
    requires f.pc.InRun? && LocalsOk(f) && (WantsGate(f.pc) ==> sh.gate.Free?)
    ensures var r := AdvanceRun(sh, a, f, f.pc.run, None, verdict); StepsLeft(r.shared, r.fiber) < StepsLeft(sh, f)
  {
  }

  lemma SteeringNears(sh: Shared, a: nat, f: Fiber)
    requires f.pc.InSteering? && LocalsOk(f) && (WantsGate(f.pc) ==> sh.gate.Free?)
    ensures var r := AdvanceSteering(sh, a, f, f.pc.late, f.pc.steering);
            StepsLeft(r.shared, r.fiber) < StepsLeft(sh, f)
  {
  }

  lemma ReleaseNears(sh: Shared, a: nat, f: Fiber)
    requires f.pc.InRelease? && (WantsGate(f.pc) ==> sh.gate.Free?)
    ensures var r := AdvanceRelease(sh, a, f, f.pc.release); StepsLeft(r.shared, r.fiber) < StepsLeft(sh, f)
  {
  }

  /** The fibre is past its admission, and nobody but itself holds the gate. */
  predicate Clear(sh: Shared, a: nat, f: Fiber) {
    && sh.gate == (if HoldsGate(f.pc) then BySub(a) else Free)
    && !AwaitsReceipt(f) && (f.pc.InRelease? || f.pc.Exited? || LocalsOk(f))
  }

  lemma SubmissionStaysClear(sh: Shared, a: nat, f: Fiber)
    requires Clear(sh, a, f) && f.pc.InSubmission?
    ensures var r := AdvanceSubmission(sh, a, f, f.pc.submission);
            Clear(r.shared, a, r.fiber) && r.shared.state.count == sh.state.count
  {
    SubmissionMoves(sh, a, f);
    SubmissionKeepsLocals(sh, a, f);
  }

  lemma SteeringStaysClear(sh: Shared, a: nat, f: Fiber)
    requires Clear(sh, a, f) && f.pc.InSteering?
    ensures var r := AdvanceSteering(sh, a, f, f.pc.late, f.pc.steering);
            Clear(r.shared, a, r.fiber) && r.shared.state.count == sh.state.count
  {
    SteeringMoves(sh, a, f);
    SteeringKeepsLocals(sh, a, f);
  }

  lemma RunStaysClear(sh: Shared, a: nat, f: Fiber, verdict: AgentLoop.Verdict)
    requires Clear(sh, a, f) && f.pc.InRun?
    ensures var r := AdvanceRun(sh, a, f, f.pc.run, None, verdict);
            Clear(r.shared, a, r.fiber) && r.shared.state.count == sh.state.count
  {
    RunMoves(sh, a, f, None, verdict);
    RunKeepsLocals(sh, a, f, None, verdict);
  }

  lemma StaysClear(sh: Shared, a: nat, f: Fiber, verdict: AgentLoop.Verdict)
    requires Clear(sh, a, f)
    ensures var r := DoAdvance(sh, a, f, None, verdict);
            Clear(r.shared, a, r.fiber) && r.shared.state.count == sh.state.count
  {
    match f.pc {
      case InSubmission(_) => SubmissionStaysClear(sh, a, f);
      case InSteering(_, _) => SteeringStaysClear(sh, a, f);
      case InRun(_) => RunStaysClear(sh, a, f, verdict);
      case _ =>
    }
  }

  lemma Nears(sh: Shared, a: nat, f: Fiber, verdict: AgentLoop.Verdict)
    requires Clear(sh, a, f) && !f.pc.Exited?
    ensures var r := DoAdvance(sh, a, f, None, verdict); StepsLeft(r.shared, r.fiber) < StepsLeft(sh, f)
  {
    match f.pc {
      case InSubmission(_) => SubmissionNears(sh, a, f);
      case InSteering(_, _) => SteeringNears(sh, a, f);
      case InRun(_) => RunNears(sh, a, f, verdict);
      case InRelease(_) => ReleaseNears(sh, a, f);
      case _ =>
    }
  }

  /** From there on the fibre alone comes to its end, and leaves the gate free. */
  lemma {:induction false} FinishAlone(from: Stepped, a: nat, at: Stepped, loop: AgentLoop.Loop) returns (to: Stepped)
    requires Leads(from, a, at, loop) && Clear(at.shared, a, at.fiber)
    ensures Leads(from, a, to, loop) && to.fiber.pc.Exited? && to.shared.gate.Free?
    ensures to.shared.state.count == at.shared.state.count
    decreases StepsLeft(at.shared, at.fiber)
  {
    if at.fiber.pc.Exited? {
      to := at;
    } else {
      var next := FinishStep(from, a, at, loop);
      to := FinishAlone(from, a, next, loop);
    }
  }

  lemma FinishStep(from: Stepped, a: nat, at: Stepped, loop: AgentLoop.Loop) returns (next: Stepped)
    requires Leads(from, a, at, loop) && Clear(at.shared, a, at.fiber) && !at.fiber.pc.Exited?
    ensures Leads(from, a, next, loop) && Clear(next.shared, a, next.fiber)
    ensures StepsLeft(next.shared, next.fiber) < StepsLeft(at.shared, at.fiber)
    ensures next.shared.state.count == at.shared.state.count
  {
    var verdict := AgentLoop.Decide(loop, Asked(at.fiber, FAILING)).verdict;
    FailingFails(at.fiber);
    LeadsOn(from, a, at, FAILING, loop);
    next := DoAdvance(at.shared, a, at.fiber, None, verdict);
    StaysClear(at.shared, a, at.fiber, verdict);
    Nears(at.shared, a, at.fiber, verdict);
  }

  // ------------------------------------------------------------- to where it is clear

  predicate AllOwn(acts: seq<Act>) {
    forall i | 0 <= i < |acts| :: Own(acts[i])
  }

  /** Steps left to whoever holds the gate, until it gives it back. */
  function HolderLeft(s: State): nat {
    match s.shared.gate
    case Free => 0
    case BySub(b) => if b in s.fibers && s.fibers[b].pc.InRelease? then ReleaseRank(s.fibers[b].pc.release) else 0
    case ByCaller(c) =>
      if c !in s.callers || !s.callers[c].Offering? then 0
      else
        match s.callers[c].at
        case Holding => 5
        case StillActive => 4
        case Accepting => 3
        case Offered => 2
        case Announced => 1
        case _ => 0
  }

  /** The gate is held by a caller, or by an earlier submission at the end of its release. */
  ghost predicate HeldElsewhere(s: State, a: nat) {
    || s.shared.gate.ByCaller?
    || (s.shared.gate.BySub? && s.shared.gate.sub != a && s.shared.gate.sub in s.fibers
        && !Live(s.fibers[s.shared.gate.sub].pc))
  }

  /** The next step of whoever holds it. */
  function HolderAct(s: State): Act {
    match s.shared.gate
    case Free => CloseSession
    case ByCaller(c) => Proceed(c)
    case BySub(b) => Advance(b, NO_CALLS)
  }

  lemma HolderNears(s: State, a: nat, loop: AgentLoop.Loop)
    requires Shape(s) && GateOk(s) && HolderOk(s) && HeldElsewhere(s, a) && a in s.fibers
    ensures var t := Step(s, HolderAct(s), loop);
            && Own(HolderAct(s)) && HolderLeft(t) < HolderLeft(s)
            && t.shared.state.count == s.shared.state.count && a in t.fibers
            && (t.shared.gate.Free? || t.shared.gate == s.shared.gate)
            && t.fibers[a].admission == s.fibers[a].admission
  {
    if s.shared.gate.ByCaller? {
      assert CallerHoldsGate(s.callers[s.shared.gate.caller]);
    } else {
      TailNears(s, s.shared.gate.sub, OutcomeOf(s.fibers[s.shared.gate.sub], NO_CALLS),
                AgentLoop.Decide(loop, Asked(s.fibers[s.shared.gate.sub], NO_CALLS)).verdict);
    }
  }

  lemma TailNears(s: State, b: nat, outcome: Option<ToolBatch.Work>, verdict: AgentLoop.Verdict)
    requires GateOk(s) && s.shared.gate == BySub(b) && b in s.fibers && !Live(s.fibers[b].pc)
    ensures var t := Committed(s, b, DoAdvance(s.shared, b, s.fibers[b], outcome, verdict));
            && HolderLeft(t) < HolderLeft(s) && (t.shared.gate.Free? || t.shared.gate == s.shared.gate)
            && t.shared.state == s.shared.state
  {
    assert GateHeld(s.shared, b, s.fibers[b]);
  }

  lemma OneMoreAct(seed: seq<nat>, acts: seq<Act>, act: Act, rest: seq<Act>, loop: AgentLoop.Loop)
    requires Own(act) && AllOwn(rest)
    ensures AllOwn([act] + rest) && acts + ([act] + rest) == (acts + [act]) + rest
    ensures After(seed, acts + [act], loop) == Step(After(seed, acts, loop), act, loop)
  {
    assert (acts + [act])[..|acts|] == acts;
  }

  /** Whoever else holds the gate gives it back. */
  lemma {:induction false} FreeTheGate(seed: seq<nat>, acts: seq<Act>, a: nat, loop: AgentLoop.Loop)
    returns (more: seq<Act>)
    requires var s := After(seed, acts, loop); a in s.fibers && Live(s.fibers[a].pc)
    ensures var s, t := After(seed, acts, loop), After(seed, acts + more, loop);
            && AllOwn(more) && t.shared.state.count == s.shared.state.count
            && a in t.fibers && Live(t.fibers[a].pc) && (t.shared.gate.Free? || t.shared.gate == BySub(a))
    decreases HolderLeft(After(seed, acts, loop))
  {
    var s := After(seed, acts, loop);
    more := [];
    Always(seed, acts, loop);
    if s.shared.gate.Free? || s.shared.gate == BySub(a) {
      assert acts + more == acts;
    } else {
      HeldByTail(s, a);
      HolderNears(s, a, loop);
      var act := HolderAct(s);
      OneMoreAct(seed, acts, act, [], loop);
      Always(seed, acts + [act], loop);
      StaysLive(s, a, act, loop);
      var rest := FreeTheGate(seed, acts + [act], a, loop);
      OneMoreAct(seed, acts, act, rest, loop);
      more := [act] + rest;
    }
  }

  lemma HeldByTail(s: State, a: nat)
    requires Shape(s) && GateOk(s) && a in s.fibers && Live(s.fibers[a].pc)
    requires !s.shared.gate.Free? && s.shared.gate != BySub(a)
    ensures HeldElsewhere(s, a)
  {
  }

  /** Another's step leaves the fibre where it is. */
  lemma StaysLive(s: State, a: nat, act: Act, loop: AgentLoop.Loop)
    requires a in s.fibers && Live(s.fibers[a].pc) && (act.Proceed? || (act.Advance? && act.sub != a))
    ensures var t := Step(s, act, loop); a in t.fibers && t.fibers[a].pc == s.fibers[a].pc
  {
  }

  lemma {:induction false} ReceiptIsReturned(seed: seq<nat>, acts: seq<Act>, a: nat, loop: AgentLoop.Loop)
    returns (more: seq<Act>)
    requires var s := After(seed, acts, loop);
             a in s.fibers && Live(s.fibers[a].pc) && (s.shared.gate.Free? || s.shared.gate == BySub(a))
    ensures var s, t := After(seed, acts, loop), After(seed, acts + more, loop);
            && AllOwn(more) && t.shared.state.count == s.shared.state.count && t.shared.gate == s.shared.gate
            && a in t.fibers && Live(t.fibers[a].pc) && !AwaitsReceipt(t.fibers[a])
    decreases AdmissionLeft(After(seed, acts, loop), a)
  {
    var s := After(seed, acts, loop);
    more := [];
    Always(seed, acts, loop);
    if !AwaitsReceipt(s.fibers[a]) {
      assert acts + more == acts;
    } else {
      assert FiberOk(s, a);
      AdmissionNears(s, a, loop);
      OneMoreAct(seed, acts, Admit(a), [], loop);
      var rest := ReceiptIsReturned(seed, acts + [Admit(a)], a, loop);
      OneMoreAct(seed, acts, Admit(a), rest, loop);
      more := [Admit(a)] + rest;
    }
  }

  function AdmissionLeft(s: State, a: nat): nat {
    if a !in s.fibers then 0
    else
      match s.fibers[a].admission
      case Claimed => 4
      case Zeroed => 3
      case Forked => 2
      case Installed => 1
      case Receipted => 0
  }

  lemma AdmissionNears(s: State, a: nat, loop: AgentLoop.Loop)
    requires Shape(s) && ActiveOk(s) && a in s.fibers && Live(s.fibers[a].pc) && AwaitsReceipt(s.fibers[a])
    ensures var t := Step(s, Admit(a), loop);
            && AdmissionLeft(t, a) < AdmissionLeft(s, a) && a in t.fibers && Live(t.fibers[a].pc)
            && t.shared.state.count == s.shared.state.count && t.shared.gate == s.shared.gate
  {
  }

  // ---------------------------------------------------------------------- theorems

  lemma IsClear(s: State, a: nat)
    requires Shape(s) && GateOk(s) && ActiveOk(s)
    requires a in s.fibers && !AwaitsReceipt(s.fibers[a]) && !s.fibers[a].pc.Exited?
    requires s.shared.gate.Free? || s.shared.gate == BySub(a)
    ensures Clear(s.shared, a, s.fibers[a])
  {
    assert GateHeld(s.shared, a, s.fibers[a]);
  }

  lemma AdvancesAreOwn(a: nat, steps: seq<Choice>)
    ensures AllOwn(Advances(a, steps))
  {
  }

  /** From where nobody else holds the gate, a submission past its admission exits. */
  lemma ClearFinishes(seed: seq<nat>, acts: seq<Act>, a: nat, loop: AgentLoop.Loop) returns (more: seq<Act>)
    requires var s := After(seed, acts, loop); a in s.fibers && Clear(s.shared, a, s.fibers[a])
    ensures var s, t := After(seed, acts, loop), After(seed, acts + more, loop);
            && AllOwn(more) && t.shared.state.count == s.shared.state.count && t.shared.gate.Free?
            && a in t.fibers && t.fibers[a].pc.Exited?
  {
    var s, at := After(seed, acts, loop), Reached(seed, acts, a, loop);
    LeadsNowhere(at, a, loop);
    var to := FinishAlone(at, a, at, loop);
    LeadsIsScheduled(seed, acts, a, to, loop);
    var steps: seq<Choice> :| After(seed, acts + Advances(a, steps), loop) == Committed(s, a, to);
    AdvancesAreOwn(a, steps);
    more := Advances(a, steps);
  }

  lemma AllOwnFrom(xs: seq<Act>, ys: seq<Act>)
    requires AllOwn(xs) && AllOwn(ys)
    ensures AllOwn(xs + ys)
  {
  }

  lemma Joined(acts: seq<Act>, xs: seq<Act>, ys: seq<Act>)
    requires AllOwn(xs) && AllOwn(ys)
    ensures AllOwn(xs + ys) && acts + (xs + ys) == (acts + xs) + ys
  {
  }

  /** `t` is as `s`, but that submission `a` has exited and the gate is free. */
  predicate Exits(s: State, t: State, a: nat) {
    t.shared.state.count == s.shared.state.count && t.shared.gate.Free? && a in t.fibers && t.fibers[a].pc.Exited?
  }

  lemma AdmittedFinishes(seed: seq<nat>, acts: seq<Act>, a: nat, loop: AgentLoop.Loop) returns (more: seq<Act>)
    requires var s := After(seed, acts, loop);
             && a in s.fibers && Live(s.fibers[a].pc) && !AwaitsReceipt(s.fibers[a])
             && (s.shared.gate.Free? || s.shared.gate == BySub(a))
    ensures AllOwn(more) && Exits(After(seed, acts, loop), After(seed, acts + more, loop), a)
  {
    Always(seed, acts, loop);
    IsClear(After(seed, acts, loop), a);
    more := ClearFinishes(seed, acts, a, loop);
  }

  lemma UngatedFinishes(seed: seq<nat>, acts: seq<Act>, a: nat, loop: AgentLoop.Loop) returns (more: seq<Act>)
    requires var s := After(seed, acts, loop);
             a in s.fibers && Live(s.fibers[a].pc) && (s.shared.gate.Free? || s.shared.gate == BySub(a))
    ensures AllOwn(more) && Exits(After(seed, acts, loop), After(seed, acts + more, loop), a)
  {
    var admitted := ReceiptIsReturned(seed, acts, a, loop);
    var rest := AdmittedFinishes(seed, acts + admitted, a, loop);
    Joined(acts, admitted, rest);
    more := admitted + rest;
  }

  lemma LiveFinishes(seed: seq<nat>, acts: seq<Act>, a: nat, loop: AgentLoop.Loop) returns (more: seq<Act>)
    requires var s := After(seed, acts, loop); a in s.fibers && Live(s.fibers[a].pc)
    ensures AllOwn(more) && Exits(After(seed, acts, loop), After(seed, acts + more, loop), a)
  {
    var freed := FreeTheGate(seed, acts, a, loop);
    var rest := UngatedFinishes(seed, acts + freed, a, loop);
    Joined(acts, freed, rest);
    more := freed + rest;
  }

  predicate AllExited(s: State) {
    forall a | a in s.fibers :: s.fibers[a].pc.Exited?
  }

  /** With the newest submission exited and the gate free, all have. */
  lemma NewestIsLast(s: State)
    requires Shape(s) && GateOk(s) && s.shared.gate.Free?
    requires s.shared.state.active.Some? ==> s.fibers[s.shared.state.count].pc.Exited?
    ensures AllExited(s)
  {
    forall a | a in s.fibers ensures s.fibers[a].pc.Exited? { assert GateHeld(s.shared, a, s.fibers[a]); }
  }

  /**
   MAIN: no submission is ever stranded. From every state of every schedule there is a way on, by steps of the
   submissions and callers already there and without a new prompt, an interruption or a close, at whose end every
   submission has finished its release and the gate is free.
   */
  lemma EverySubmissionFinishes(seed: seq<nat>, acts: seq<Act>, loop: AgentLoop.Loop) returns (more: seq<Act>)
    ensures AllOwn(more)
    ensures var t := After(seed, acts + more, loop); AllExited(t) && t.shared.gate.Free?
  {
    var s := After(seed, acts, loop);
    Always(seed, acts, loop);
    if s.shared.state.active.Some? {
      more := LiveFinishes(seed, acts, s.shared.state.count, loop);
      Always(seed, acts + more, loop);
      NewestIsLast(After(seed, acts + more, loop));
    } else {
      more := QuietFinishes(seed, acts, loop);
    }
  }

  /** With no submission active, only the gate's holder, if any, is left to go on. */
  lemma {:induction false} QuietFinishes(seed: seq<nat>, acts: seq<Act>, loop: AgentLoop.Loop) returns (more: seq<Act>)
    requires After(seed, acts, loop).shared.state.active.None?
    ensures AllOwn(more)
    ensures var t := After(seed, acts + more, loop); AllExited(t) && t.shared.gate.Free?
    decreases HolderLeft(After(seed, acts, loop))
  {
    var s := After(seed, acts, loop);
    more := [];
    Always(seed, acts, loop);
    if s.shared.gate.Free? {
      assert acts + more == acts;
      NewestIsLast(s);
    } else {
      var act := HolderAct(s);
      QuietHolder(s, loop);
      OneMoreAct(seed, acts, act, [], loop);
      var rest := QuietFinishes(seed, acts + [act], loop);
      OneMoreAct(seed, acts, act, rest, loop);
      more := [act] + rest;
    }
  }

  lemma QuietHolder(s: State, loop: AgentLoop.Loop)
    requires Shape(s) && GateOk(s) && HolderOk(s) && s.shared.state.active.None? && !s.shared.gate.Free?
    ensures var t := Step(s, HolderAct(s), loop);
            Own(HolderAct(s)) && HolderLeft(t) < HolderLeft(s) && t.shared.state.active.None?
  {
    if s.shared.gate.ByCaller? {
      assert CallerHoldsGate(s.callers[s.shared.gate.caller]);
    } else {
      var b := s.shared.gate.sub;
      TailNears(s, b, OutcomeOf(s.fibers[b], NO_CALLS), AgentLoop.Decide(loop, Asked(s.fibers[b], NO_CALLS)).verdict);
    }
  }
}
