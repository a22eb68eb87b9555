/** What each step of one submission's fibre keeps of its own locals, and may change of the shared state. */
module KernelFiber {
  import opened Base
  import opened Kernel
  import AgentLoop
  import ToolBatch

  // ------------------------------------------------------- reading a history

  function SubOf(e: Entry): nat {
    match e
    case Seeded(_) => 0
    case Prompted(a, _) => a
    case Applied(a, _, _) => a
    case TurnDone(a, _, _, _, _) => a
  }

  function ItemsOf(e: Entry, kind: Kind, a: nat): seq<Item> {
    if e.Applied? && e.kind == kind && e.sub == a then [e.item] else []
  }

  /** The inputs of one kind that submission `a` has applied to history, in order. */
  function Items(h: seq<Entry>, kind: Kind, a: nat): seq<Item>
    decreases |h|
  {
    if h == [] then [] else Items(h[..|h| - 1], kind, a) + ItemsOf(h[|h| - 1], kind, a)
  }

  predicate TurnOf(e: Entry, a: nat) {
    e.TurnDone? && e.sub == a
  }

  function Turns(h: seq<Entry>, a: nat): nat
    decreases |h|
  {
    if h == [] then 0 else Turns(h[..|h| - 1], a) + (if TurnOf(h[|h| - 1], a) then 1 else 0)
  }

  lemma Append(h: seq<Entry>, e: Entry, a: nat)
    ensures Items(h + [e], Steering, a) == Items(h, Steering, a) + ItemsOf(e, Steering, a)
    ensures Items(h + [e], FollowUp, a) == Items(h, FollowUp, a) + ItemsOf(e, FollowUp, a)
    ensures Turns(h + [e], a) == Turns(h, a) + (if TurnOf(e, a) then 1 else 0)
  {
    assert (h + [e])[..|h + [e]| - 1] == h;
  }

  lemma {:induction false} NothingYet(h: seq<Entry>, a: nat)
    requires forall i | 0 <= i < |h| :: SubOf(h[i]) < a
    ensures Items(h, Steering, a) == [] && Items(h, FollowUp, a) == [] && Turns(h, a) == 0
    decreases |h|
  {
    if h != [] { NothingYet(h[..|h| - 1], a); }
  }

  predicate EndsWithTurn(h: seq<Entry>, a: nat) {
    |h| > 0 && TurnOf(h[|h| - 1], a)
  }

  /** Every input `a` applied is followed by a turn of `a`'s. */
  ghost predicate Answered(h: seq<Entry>, a: nat) {
    forall i | 0 <= i < |h| && h[i].Applied? && h[i].sub == a :: exists j :: i < j < |h| && TurnOf(h[j], a)
  }

  // ------------------------------------------------------------- program points

  predicate Live(pc: PC) {
    !(pc.Exited? || (pc.InRelease? && (pc.release.DropSteering? || pc.release.DropFollowUps? || pc.release.OpenGate?)))
  }

  predicate Dropping(pc: PC) {
    pc.InRelease? && (pc.release.DropSteering? || pc.release.DropFollowUps?)
  }

  predicate HoldsGate(pc: PC) {
    match pc
    case Unborn => false
    case InSubmission(q) => q.PullDrain? || q.PullUnlock? || q.LastDrain? || q.LastUnlock?
    case InRun(q) => q.CloseFlag? || q.CloseUnlock?
    case InSteering(_, q) => !q.SteerWait?
    case InRelease(q) => q.SetIdle? || q.DropSteering? || q.DropFollowUps? || q.OpenGate?
    case Exited => false
  }

  predicate CallerHoldsGate(k: Caller) {
    k.Offering? && (k.at.Holding? || k.at.StillActive? || k.at.Accepting? || k.at.Offered? || k.at.Announced?)
  }

  /** Between a run's late drain and the next run's start; `SteerShut` covers the drain's own wait as well. */
  predicate SteerDry(f: Fiber) {
    match f.pc
    case Unborn => false
    case InSubmission(q) => !q.Waiting? && (q.Head? || q.Commit? || q.CountRun? ==> f.runs > 0)
    case InRun(q) => q.StartRun? && f.runs > 1
    case InSteering(late, q) => late && (q.SteerCommit? || q.SteerUnlock?)
    case InRelease(_) => f.exit.completed
    case Exited => false
  }

  /** The steering queue has been drained, under the gate that is still held. */
  predicate Drained(pc: PC) {
    pc.InSteering? && (pc.steering.SteerCommit? || pc.steering.SteerUnlock?)
  }

  predicate SteerShut(f: Fiber) {
    SteerDry(f) || f.pc == InRun(CloseUnlock) || (f.pc.InSteering? && f.pc.late)
  }

  /** After the closing drain of follow-ups, unless it found some. */
  predicate FollowDry(f: Fiber) {
    match f.pc
    case Unborn => false
    case InSubmission(q) =>
      || q.LastUnlock? || q.Reopen?
      || (q.Shift? && f.input.pending == [] && f.run.late == 0)
      || (q.Head? && f.input.next.None? && f.run.late == 0)
    case InRun(_) => false
    case InSteering(_, _) => false
    case InRelease(_) => f.exit.completed
    case Exited => false
  }

  predicate FollowShut(f: Fiber) {
    FollowDry(f) || (f.pc.InSubmission? && (f.pc.submission.LastWait? || f.pc.submission.LastDrain?))
  }

  // -------------------------------------------- a live fibre and its own locals

  predicate Opening(f: Fiber) {
    f.pc.Unborn?
    || (f.pc.InSubmission? && (f.pc.submission.Waiting? || f.pc.submission.Head? || f.pc.submission.Commit?))
  }

  predicate LastPC(pc: PC) {
    pc.InSubmission? && var q := pc.submission; q.LastWait? || q.LastDrain? || q.LastUnlock? || q.Reopen?
  }

  /** Which locals are set where. */
  predicate LocalsOk(f: Fiber) {
    && (f.pc.Unborn? <==> f.admission.Claimed? || f.admission.Zeroed?)
    && (f.pc.Unborn? || f.pc == InSubmission(Waiting) || f.admission.Installed? || f.admission.Receipted?)
    && (f.pc.Unborn? || f.pc == InSubmission(Waiting) ==> f.runs == 0 && f.run.late == 0)
    && (!f.pc.InRelease? ==>
          && ((f.pc.InSteering? && f.pc.steering.SteerCommit?) || f.input.batch == [])
          && (f.pc == InSubmission(Head) && f.input.next.None? ==> f.input.pending == [])
          && (f.input.next.Some? && f.input.next.value.Initial? <==> f.runs == 0 && Opening(f))
          && (f.input.next.Some? ==> Opening(f) || f.pc == InSubmission(ShiftOpen))
          && (f.pc == InSubmission(Commit) || f.pc == InSubmission(ShiftOpen) ==> f.input.next.Some?)
          && (f.runs == 0 ==> (Opening(f) || f.pc == InSubmission(CountRun)) && f.run.late == 0))
    && (LastPC(f.pc) ==> f.run.late == 0)
    && (f.pc == InSteering(true, SteerCommit) ==> |f.input.batch| <= f.run.late)
    && (f.pc.InRun? && (f.pc.run.CommitTurn? || f.pc.run.Record? || f.pc.run.Decide?) ==> f.run.work.Some?)
    && (f.run.work.Some? ==> ToolBatch.Matched(f.run.work.value))
    && (f.exit.completed ==> f.pc.InRelease? && f.input.next.None? && f.input.pending == [] && f.input.batch == [])
  }

  /** What the fibre's program counter says of the session's flags and queues. */
  predicate FlagsOk(sh: Shared, f: Fiber) {
    && (SteerShut(f) ==> !sh.state.acceptingSteering)
    && (!f.pc.InRelease? ==> (sh.state.acceptingSteering <==> !SteerShut(f)))
    && (SteerDry(f) || Drained(f.pc) ==> sh.steering == [])
    && (FollowDry(f) ==> sh.followUps == [] && !sh.state.acceptingFollowUps)
    && (!f.pc.InRelease? ==> (sh.state.acceptingFollowUps <==> !FollowShut(f)))
  }

  /** A turn of the run is the last thing in history, unless late steering was applied after it. */
  predicate AfterTurn(f: Fiber) {
    match f.pc
    case Unborn => false
    case InSubmission(q) =>
      f.run.late == 0 &&
      (if q.Head? then f.runs > 0 && f.input.next.None? else !(q.Waiting? || q.Commit? || q.CountRun? || q.ShiftOpen?))
    case InRun(q) =>
      q.Record? || q.Decide? || q.CloseWait? || q.CloseFlag? || q.CloseUnlock?
    case InSteering(late, q) => late && (q.SteerWait? || q.SteerDrain? || f.run.late == 0)
    case InRelease(_) => f.exit.completed
    case Exited => false
  }

  predicate HistoryOk(sh: Shared, a: nat, f: Fiber) {
    && (AfterTurn(f) ==> EndsWithTurn(sh.history, a))
    && (f.pc.InRun? && (f.pc.run.Think? || f.pc.run.CommitTurn?) ==> f.run.context == |sh.history|)
  }

  predicate BodyOk(sh: Shared, a: nat, f: Fiber) {
    LocalsOk(f) && FlagsOk(sh, f) && HistoryOk(sh, a, f)
  }

  // ------------------------------------------------- where an accepted input is

  /** The inputs of one kind and submission, by how far they have come. */
  datatype Pipe = Pipe(applied: seq<Item>, held: seq<Item>, queued: seq<Item>, dropped: seq<Item>)

  function Flat(p: Pipe): seq<Item> {
    p.applied + p.held + p.queued + p.dropped
  }

  function NextItems(next: Option<Input>): seq<Item> {
    if next.Some? && next.value.Later? then [next.value.item] else []
  }

  /** `mine`: the queues hold this submission's inputs. */
  function SteerPipe(sh: Shared, a: nat, f: Fiber, mine: bool): Pipe {
    Pipe(Items(sh.history, Steering, a), f.input.batch, if mine then sh.steering else [], f.steers.dropped)
  }

  function FollowPipe(sh: Shared, a: nat, f: Fiber, mine: bool): Pipe {
    Pipe(Items(sh.history, FollowUp, a), NextItems(f.input.next) + f.input.pending,
         if mine then sh.followUps else [], f.follows.dropped)
  }

  /** Nothing moves; or the queue is drained; or the first held input is applied; or the queue is dropped. */
  predicate Flows(p: Pipe, q: Pipe) {
    || q == p
    || q == Pipe(p.applied, p.held + p.queued, [], p.dropped)
    || (p.held != [] && q == Pipe(p.applied + [p.held[0]], p.held[1..], p.queued, p.dropped))
    || (p.dropped == [] && q == Pipe(p.applied, p.held, [], p.queued))
  }

  /** However it moves, the order of the inputs is kept, and none is lost. */
  lemma FlowKeepsOrder(p: Pipe, q: Pipe)
    requires Flows(p, q)
    ensures Flat(p) == Flat(q)
  {
  }

  ghost predicate BothFlow(sh: Shared, a: nat, f: Fiber, r: Stepped, before: bool, after: bool) {
    && Flows(SteerPipe(sh, a, f, before), SteerPipe(r.shared, a, r.fiber, after))
    && Flows(FollowPipe(sh, a, f, before), FollowPipe(r.shared, a, r.fiber, after))
  }

  /** A step that leaves both pipes as they are. */
  ghost predicate Still(sh: Shared, a: nat, f: Fiber, r: Stepped) {
    && f.input == r.fiber.input && f.steers == r.fiber.steers && f.follows == r.fiber.follows
    && sh.steering == r.shared.steering && sh.followUps == r.shared.followUps
    && Items(sh.history, Steering, a) == Items(r.shared.history, Steering, a)
    && Items(sh.history, FollowUp, a) == Items(r.shared.history, FollowUp, a)
  }

  lemma StillFlows(sh: Shared, a: nat, f: Fiber, r: Stepped, mine: bool)
    requires Still(sh, a, f, r)
    ensures BothFlow(sh, a, f, r, mine, mine)
  {
  }

  lemma FollowUpFlows(sh: Shared, a: nat, f: Fiber, mine: bool)
    requires f.input.next.Some? && f.input.next.value.Later?
    ensures var r := DoCommit(sh, a, f); Flows(FollowPipe(sh, a, f, mine), FollowPipe(r.shared, a, r.fiber, mine))
  {
    var r := DoCommit(sh, a, f);
    Append(sh.history, r.shared.history[|sh.history|], a);
    var p, q := FollowPipe(sh, a, f, mine), FollowPipe(r.shared, a, r.fiber, mine);
    assert p.held == [f.input.next.value.item] + f.input.pending && p.held[1..] == f.input.pending;
    assert q == Pipe(p.applied + [p.held[0]], p.held[1..], p.queued, p.dropped);
  }

  lemma CommitFlows(sh: Shared, a: nat, f: Fiber, mine: bool)
    ensures BothFlow(sh, a, f, DoCommit(sh, a, f), mine, mine)
  {
    var r := DoCommit(sh, a, f);
    if f.input.next.Some? {
      Append(sh.history, r.shared.history[|sh.history|], a);
      assert SteerPipe(r.shared, a, r.fiber, mine) == SteerPipe(sh, a, f, mine);
      if f.input.next.value.Later? { FollowUpFlows(sh, a, f, mine); }
      else { assert FollowPipe(r.shared, a, r.fiber, mine) == FollowPipe(sh, a, f, mine); }
    }
  }

  lemma PullFlows(sh: Shared, a: nat, f: Fiber, pc: SubmissionPC)
    ensures BothFlow(sh, a, f, DoPull(sh, f, pc), true, true)
  {
    var p, q := FollowPipe(sh, a, f, true), FollowPipe(DoPull(sh, f, pc).shared, a, DoPull(sh, f, pc).fiber, true);
    assert q == Pipe(p.applied, p.held + p.queued, [], p.dropped);
  }

  lemma ShiftFlows(sh: Shared, a: nat, f: Fiber, mine: bool)
    requires f.input.next.None?
    ensures BothFlow(sh, a, f, DoShift(sh, f), mine, mine)
  {
    if f.input.pending != [] {
      assert f.input.pending == [f.input.pending[0]] + f.input.pending[1..];
    }
    assert FollowPipe(sh, a, f, mine) == FollowPipe(sh, a, DoShift(sh, f).fiber, mine);
  }

  lemma SubmissionFlows(sh: Shared, a: nat, f: Fiber, mine: bool)
    requires f.pc.InSubmission? && LocalsOk(f) && (HoldsGate(f.pc) ==> mine)
    ensures BothFlow(sh, a, f, AdvanceSubmission(sh, a, f, f.pc.submission), mine, mine)
  {
    match f.pc.submission {
      case Commit => CommitFlows(sh, a, f, mine);
      case PullDrain => PullFlows(sh, a, f, PullUnlock);
      case LastDrain => PullFlows(sh, a, f, LastUnlock);
      case Shift => ShiftFlows(sh, a, f, mine);
      case _ => StillFlows(sh, a, f, AdvanceSubmission(sh, a, f, f.pc.submission), mine);
    }
  }

  lemma SteerCommitFlows(sh: Shared, a: nat, f: Fiber, late: bool, mine: bool)
    ensures BothFlow(sh, a, f, DoSteerCommit(sh, a, f, late), mine, mine)
  {
    if f.input.batch != [] {
      var r := DoSteerCommit(sh, a, f, late);
      Append(sh.history, Applied(a, Steering, f.input.batch[0]), a);
      var p := SteerPipe(sh, a, f, mine);
      assert SteerPipe(r.shared, a, r.fiber, mine) == Pipe(p.applied + [p.held[0]], p.held[1..], p.queued, p.dropped);
      assert FollowPipe(sh, a, f, mine) == FollowPipe(r.shared, a, r.fiber, mine);
    }
  }

  lemma SteerDrainFlows(sh: Shared, a: nat, f: Fiber, late: bool)
    requires f.input.batch == []
    ensures BothFlow(sh, a, f, DoSteerDrain(sh, f, late), true, true)
  {
    var r := DoSteerDrain(sh, f, late);
    var p := SteerPipe(sh, a, f, true);
    assert SteerPipe(r.shared, a, r.fiber, true) == Pipe(p.applied, p.held + p.queued, [], p.dropped);
  }

  lemma SteeringFlows(sh: Shared, a: nat, f: Fiber, mine: bool)
    requires f.pc.InSteering? && LocalsOk(f) && (HoldsGate(f.pc) ==> mine)
    ensures BothFlow(sh, a, f, AdvanceSteering(sh, a, f, f.pc.late, f.pc.steering), mine, mine)
  {
    match f.pc.steering {
      case SteerCommit => SteerCommitFlows(sh, a, f, f.pc.late, mine);
      case SteerDrain => SteerDrainFlows(sh, a, f, f.pc.late);
      case _ => StillFlows(sh, a, f, AdvanceSteering(sh, a, f, f.pc.late, f.pc.steering), mine);
    }
  }

  lemma RunFlows(sh: Shared, a: nat, f: Fiber, outcome: Option<ToolBatch.Work>, verdict: AgentLoop.Verdict, mine: bool)
    requires f.pc.InRun?
    ensures BothFlow(sh, a, f, AdvanceRun(sh, a, f, f.pc.run, outcome, verdict), mine, mine)
  {
    var r := AdvanceRun(sh, a, f, f.pc.run, outcome, verdict);
    if f.pc.run.CommitTurn? && f.run.work.Some? {
      Append(sh.history, r.shared.history[|sh.history|], a);
    }
    StillFlows(sh, a, f, r, mine);
  }

  lemma DropFlows(sh: Shared, a: nat, f: Fiber)
    requires f.pc.InRelease? && Dropping(f.pc) && f.follows.dropped == []
    requires f.pc.release.DropSteering? ==> f.steers.dropped == []
    requires f.pc.release.DropFollowUps? ==> sh.steering == []
    ensures BothFlow(sh, a, f, AdvanceRelease(sh, a, f, f.pc.release), true, f.pc.release.DropSteering?)
  {
    var p, q := SteerPipe(sh, a, f, true), FollowPipe(sh, a, f, true);
    var r := AdvanceRelease(sh, a, f, f.pc.release);
    if f.pc.release.DropSteering? {
      assert SteerPipe(r.shared, a, r.fiber, true) == Pipe(p.applied, p.held, [], p.queued);
      assert FollowPipe(r.shared, a, r.fiber, true) == q;
    } else {
      assert SteerPipe(r.shared, a, r.fiber, false) == p;
      assert FollowPipe(r.shared, a, r.fiber, false) == Pipe(q.applied, q.held, [], q.queued);
    }
  }

  lemma ReleaseFlows(sh: Shared, a: nat, f: Fiber, mine: bool)
    requires f.pc.InRelease? && !Dropping(f.pc)
    ensures BothFlow(sh, a, f, AdvanceRelease(sh, a, f, f.pc.release), mine, mine)
  {
    StillFlows(sh, a, f, AdvanceRelease(sh, a, f, f.pc.release), mine);
  }

  // ------------------------------------------- what a fibre's step may change

  predicate GateMoved(sh: Shared, a: nat, f: Fiber, r: Stepped) {
    || (r.shared.gate == sh.gate && HoldsGate(f.pc) == HoldsGate(r.fiber.pc))
    || (sh.gate == Free && r.shared.gate == BySub(a) && !HoldsGate(f.pc) && HoldsGate(r.fiber.pc))
    || (sh.gate == BySub(a) && r.shared.gate == Free && HoldsGate(f.pc) && !HoldsGate(r.fiber.pc))
  }

  predicate HistoryMoved(sh: Shared, a: nat, r: Stepped) {
    var n := |sh.history|;
    || r.shared.history == sh.history
    || (|r.shared.history| == n + 1 && r.shared.history == sh.history + [r.shared.history[n]]
        && SubOf(r.shared.history[n]) == a)
  }

  /** Admission and the status change only in `release`'s gated step. */
  predicate StateMoved(sh: Shared, f: Fiber, r: Stepped) {
    if f.pc == InRelease(SetIdle) && r.fiber.pc != f.pc then
      var status := if sh.state.status.Closed? then Closed else Idle;
      r.shared.state == SessionState(status, sh.state.count, None, false, false)
      && r.fiber.pc == InRelease(DropSteering)
    else
      r.shared.state.status == sh.state.status && r.shared.state.count == sh.state.count
      && r.shared.state.active == sh.state.active && Live(r.fiber.pc) == Live(f.pc)
  }

  predicate QueueMoved(f: Fiber, before: seq<Item>, after: seq<Item>) {
    after == before || (HoldsGate(f.pc) && after == [])
  }

  predicate LogMoved(before: Log, after: Log) {
    after.accepted == before.accepted && after.announced == before.announced
  }

  predicate Moved(sh: Shared, a: nat, f: Fiber, r: Stepped) {
    && GateMoved(sh, a, f, r) && HistoryMoved(sh, a, r) && StateMoved(sh, f, r)
    && QueueMoved(f, sh.steering, r.shared.steering) && QueueMoved(f, sh.followUps, r.shared.followUps)
    && LogMoved(f.steers, r.fiber.steers) && LogMoved(f.follows, r.fiber.follows)
  }

  predicate GateHeld(sh: Shared, a: nat, f: Fiber) {
    HoldsGate(f.pc) <==> sh.gate == BySub(a)
  }

  predicate Closing(pc: SubmissionPC) {
    pc.PullCheck? || pc.PullWait? || pc.PullDrain? || pc.PullUnlock? || pc.CloseCheck? || pc.LastWait? || pc.LastDrain?
  }

  lemma ClosingMoves(sh: Shared, a: nat, f: Fiber)
    requires f.pc.InSubmission? && Closing(f.pc.submission) && GateHeld(sh, a, f)
    ensures Moved(sh, a, f, AdvanceSubmission(sh, a, f, f.pc.submission))
  {
  }

  lemma SubmissionMoves(sh: Shared, a: nat, f: Fiber)
    requires f.pc.InSubmission? && GateHeld(sh, a, f)
    ensures Moved(sh, a, f, AdvanceSubmission(sh, a, f, f.pc.submission))
  {
    if Closing(f.pc.submission) { ClosingMoves(sh, a, f); }
  }

  lemma SteeringMoves(sh: Shared, a: nat, f: Fiber)
    requires f.pc.InSteering? && GateHeld(sh, a, f)
    ensures Moved(sh, a, f, AdvanceSteering(sh, a, f, f.pc.late, f.pc.steering))
  {
  }

  lemma RunMoves(sh: Shared, a: nat, f: Fiber, outcome: Option<ToolBatch.Work>, verdict: AgentLoop.Verdict)
    requires f.pc.InRun? && GateHeld(sh, a, f)
    ensures Moved(sh, a, f, AdvanceRun(sh, a, f, f.pc.run, outcome, verdict))
  {
  }

  lemma ReleaseMoves(sh: Shared, a: nat, f: Fiber)
    requires f.pc.InRelease? && GateHeld(sh, a, f)
    ensures Moved(sh, a, f, AdvanceRelease(sh, a, f, f.pc.release))
  {
  }

  /** Input is shut off only under the gate, so not while a caller holds it. */
  predicate ShutsUnderGate(f: Fiber, r: Stepped) {
    HoldsGate(f.pc) || ((SteerShut(r.fiber) ==> SteerShut(f)) && (FollowDry(r.fiber) ==> FollowDry(f)))
  }

  lemma SubmissionShuts(sh: Shared, a: nat, f: Fiber)
    requires f.pc.InSubmission? && BodyOk(sh, a, f)
    ensures ShutsUnderGate(f, AdvanceSubmission(sh, a, f, f.pc.submission))
  {
  }

  lemma SteeringShuts(sh: Shared, a: nat, f: Fiber)
    requires f.pc.InSteering?
    ensures ShutsUnderGate(f, AdvanceSteering(sh, a, f, f.pc.late, f.pc.steering))
  {
  }

  lemma RunShuts(sh: Shared, a: nat, f: Fiber, outcome: Option<ToolBatch.Work>, verdict: AgentLoop.Verdict)
    requires f.pc.InRun? && LocalsOk(f)
    ensures ShutsUnderGate(f, AdvanceRun(sh, a, f, f.pc.run, outcome, verdict))
  {
  }

  // ---------------------------------------------- progress and fibre references

  predicate Cleared(pc: PC) {
    pc == InRelease(WaitGate) || pc == InRelease(SetIdle)
  }

  predicate PastSettle(pc: PC) {
    pc.Exited? || (pc.InRelease? && !pc.release.ReadFiber? && !pc.release.ReadProgress? && !pc.release.Settle?)
  }

  predicate Registered(f: Fiber) {
    f.admission.Installed? || f.admission.Receipted?
  }

  /** What the step adds to the history of the fibre's own. */
  function TurnAdded(f: Fiber): nat {
    if f.pc == InRun(CommitTurn) && f.run.work.Some? then 1 else 0
  }

  function SteerAdded(f: Fiber): nat {
    if f.pc.InSteering? && f.pc.steering.SteerCommit? && f.input.batch != [] then 1 else 0
  }

  function FollowAdded(f: Fiber): nat {
    if f.pc == InSubmission(Commit) && f.input.next.Some? && f.input.next.value.Later? then 1 else 0
  }

  predicate Gained(h: seq<Entry>, g: seq<Entry>, a: nat, f: Fiber) {
    && Turns(g, a) == Turns(h, a) + TurnAdded(f)
    && |Items(g, Steering, a)| == |Items(h, Steering, a)| + SteerAdded(f)
    && |Items(g, FollowUp, a)| == |Items(h, FollowUp, a)| + FollowAdded(f)
  }

  lemma AppendGains(h: seq<Entry>, e: Entry, a: nat, f: Fiber)
    requires SubOf(e) == a
    requires TurnAdded(f) == (if e.TurnDone? then 1 else 0)
    requires SteerAdded(f) == (if e.Applied? && e.kind == Steering then 1 else 0)
    requires FollowAdded(f) == (if e.Applied? && e.kind == FollowUp then 1 else 0)
    ensures Gained(h, h + [e], a, f)
  {
    Append(h, e, a);
  }

  lemma SubmissionGains(sh: Shared, a: nat, f: Fiber)
    requires f.pc.InSubmission?
    ensures Gained(sh.history, AdvanceSubmission(sh, a, f, f.pc.submission).shared.history, a, f)
  {
    if f.pc.submission.Commit? && f.input.next.Some? {
      AppendGains(sh.history, AdvanceSubmission(sh, a, f, Commit).shared.history[|sh.history|], a, f);
    }
  }

  lemma SteeringGains(sh: Shared, a: nat, f: Fiber)
    requires f.pc.InSteering?
    ensures Gained(sh.history, AdvanceSteering(sh, a, f, f.pc.late, f.pc.steering).shared.history, a, f)
  {
    if f.pc.steering.SteerCommit? && f.input.batch != [] {
      AppendGains(sh.history, Applied(a, Steering, f.input.batch[0]), a, f);
    }
  }

  lemma RunGains(sh: Shared, a: nat, f: Fiber, outcome: Option<ToolBatch.Work>, verdict: AgentLoop.Verdict)
    requires f.pc.InRun?
    ensures Gained(sh.history, AdvanceRun(sh, a, f, f.pc.run, outcome, verdict).shared.history, a, f)
  {
    if f.pc.run.CommitTurn? && f.run.work.Some? {
      AppendGains(sh.history, AdvanceRun(sh, a, f, CommitTurn, outcome, verdict).shared.history[|sh.history|], a, f);
    }
  }

  /** Progress reported of `a`: its own runs, and its committed turns but for at most the last. */
  predicate Reports(p: Progress, turns: nat, a: nat, f: Fiber) {
    p.owner == a && p.runs == f.runs && p.turns <= turns <= p.turns + 1 && (f.exit.completed ==> p.turns == turns)
  }

  /** The live counter, between the admission that zeroed it and the release that copies it. */
  predicate ProgressOk(sh: Shared, turns: nat, a: nat, f: Fiber) {
    && (f.admission.Claimed? ==> turns == 0)
    && (!f.admission.Claimed? ==> Reports(sh.progress, turns, a, f))
    && (!f.admission.Claimed? && !f.pc.InRelease? ==>
          turns == sh.progress.turns + (if f.pc == InRun(Record) then 1 else 0))
  }

  predicate RefsOk(sh: Shared, turns: nat, a: nat, f: Fiber) {
    && sh.activeFiber == (if Registered(f) && !Cleared(f.pc) then Some(a) else None)
    && (f.pc == InRelease(ReadProgress) || f.pc == InRelease(Settle) ==> f.exit.target == a)
    && (f.pc == InRelease(Settle) ==> f.exit.landed == sh.progress)
    && (PastSettle(f.pc) ==> sh.settledFiber.Some? && sh.settledFiber.value.sub == a
                             && Reports(sh.settledFiber.value.progress, turns, a, f))
  }

  predicate TracksOk(sh: Shared, turns: nat, a: nat, f: Fiber) {
    ProgressOk(sh, turns, a, f) && RefsOk(sh, turns, a, f)
  }

  lemma SubmissionTracks(sh: Shared, turns: nat, a: nat, f: Fiber)
    requires f.pc.InSubmission? && LocalsOk(f) && TracksOk(sh, turns, a, f)
    ensures var r := AdvanceSubmission(sh, a, f, f.pc.submission); TracksOk(r.shared, turns, a, r.fiber)
  {
    SubmissionReports(sh, turns, a, f);
    SubmissionRefs(sh, turns, a, f);
  }

  lemma SubmissionRefs(sh: Shared, turns: nat, a: nat, f: Fiber)
    requires f.pc.InSubmission? && RefsOk(sh, turns, a, f)
    requires f.admission.Installed? || f.admission.Receipted? || f.pc.submission.Waiting?
    ensures var r := AdvanceSubmission(sh, a, f, f.pc.submission); RefsOk(r.shared, turns, a, r.fiber)
  {
    SubmissionLeavesRefs(sh, a, f);
  }

  /** It stays registered, and short of its settling. */
  lemma SubmissionLeavesRefs(sh: Shared, a: nat, f: Fiber)
    requires f.pc.InSubmission?
    ensures var r := AdvanceSubmission(sh, a, f, f.pc.submission);
            && r.shared.activeFiber == sh.activeFiber && r.fiber.admission == f.admission
            && (r.fiber.pc.InSubmission? || r.fiber.pc.InRun? || r.fiber.pc == InRelease(ReadFiber))
  {
  }

  lemma SubmissionReports(sh: Shared, turns: nat, a: nat, f: Fiber)
    requires f.pc.InSubmission? && !f.pc.Unborn? && !f.admission.Claimed? && ProgressOk(sh, turns, a, f)
        && !f.exit.completed
    ensures var r := AdvanceSubmission(sh, a, f, f.pc.submission); ProgressOk(r.shared, turns, a, r.fiber)
  {
  }

  lemma SteeringTracks(sh: Shared, turns: nat, a: nat, f: Fiber)
    requires f.pc.InSteering? && LocalsOk(f) && TracksOk(sh, turns, a, f)
    ensures var r := AdvanceSteering(sh, a, f, f.pc.late, f.pc.steering); TracksOk(r.shared, turns, a, r.fiber)
  {
  }

  lemma RunTracks(sh: Shared, turns: nat, a: nat, f: Fiber, outcome: Option<ToolBatch.Work>, verdict: AgentLoop.Verdict)
    requires f.pc.InRun? && LocalsOk(f) && TracksOk(sh, turns, a, f)
    ensures var r := AdvanceRun(sh, a, f, f.pc.run, outcome, verdict);
            TracksOk(r.shared, turns + TurnAdded(f), a, r.fiber)
  {
  }

  lemma ReleaseTracks(sh: Shared, turns: nat, a: nat, f: Fiber)
    requires f.pc.InRelease? && Live(f.pc) && LocalsOk(f) && TracksOk(sh, turns, a, f)
    ensures var r := AdvanceRelease(sh, a, f, f.pc.release);
            if f.pc.release.SetIdle? then r.shared.settledFiber == sh.settledFiber && r.shared.activeFiber.None?
            else TracksOk(r.shared, turns, a, r.fiber)
  {
  }

  // --------------------------------------------------------- how many runs

  /** A run is owed by late steering that has been counted, or by an input just applied. */
  predicate Owed(f: Fiber) {
    f.pc.InSubmission? && (f.pc.submission.CountRun? || f.run.late > 0)
  }

  /** Late steering applied by the drain in progress. */
  function LateApplied(f: Fiber): int {
    if f.pc == InSteering(true, SteerCommit) then f.run.late - |f.input.batch|
    else if f.pc == InSteering(true, SteerUnlock) then f.run.late
    else 0
  }

  predicate CountsOk(steers: nat, follows: nat, f: Fiber) {
    && f.runs + (if Owed(f) then 1 else 0) <= 1 + follows + f.continuations
    && f.continuations + LateApplied(f) <= steers
  }

  lemma SubmissionCounts(sh: Shared, steers: nat, follows: nat, a: nat, f: Fiber)
    requires f.pc.InSubmission? && LocalsOk(f) && CountsOk(steers, follows, f)
    ensures CountsOk(steers, follows + FollowAdded(f), AdvanceSubmission(sh, a, f, f.pc.submission).fiber)
  {
  }

  lemma SteeringCounts(sh: Shared, steers: nat, follows: nat, a: nat, f: Fiber)
    requires f.pc.InSteering? && LocalsOk(f) && CountsOk(steers, follows, f)
    ensures CountsOk(steers + SteerAdded(f), follows, AdvanceSteering(sh, a, f, f.pc.late, f.pc.steering).fiber)
  {
  }

  lemma RunCounts(sh: Shared, steers: nat, follows: nat, a: nat, f: Fiber, outcome: Option<ToolBatch.Work>,
                  verdict: AgentLoop.Verdict)
    requires f.pc.InRun? && CountsOk(steers, follows, f)
    ensures CountsOk(steers, follows, AdvanceRun(sh, a, f, f.pc.run, outcome, verdict).fiber)
  {
  }

  lemma ReleaseKeepsHistory(sh: Shared, a: nat, f: Fiber)
    requires f.pc.InRelease?
    ensures var r := AdvanceRelease(sh, a, f, f.pc.release);
            && r.shared.history == sh.history && r.fiber.runs == f.runs && r.fiber.continuations == f.continuations
            && !Owed(r.fiber) && LateApplied(r.fiber) == 0 && ShutsUnderGate(f, r)
  {
  }

  // ------------------------------------------------------ locals and flags

  lemma ClosingKeepsLocals(sh: Shared, a: nat, f: Fiber)
    requires f.pc.InSubmission? && Closing(f.pc.submission) && LocalsOk(f)
    ensures LocalsOk(AdvanceSubmission(sh, a, f, f.pc.submission).fiber)
  {
  }

  lemma SubmissionKeepsLocals(sh: Shared, a: nat, f: Fiber)
    requires f.pc.InSubmission? && LocalsOk(f)
    ensures LocalsOk(AdvanceSubmission(sh, a, f, f.pc.submission).fiber)
  {
    if Closing(f.pc.submission) { ClosingKeepsLocals(sh, a, f); }
  }

  lemma SubmissionKeepsFlags1(sh: Shared, a: nat, f: Fiber)
    requires f.pc.InSubmission? && Closing(f.pc.submission) && BodyOk(sh, a, f)
    ensures var r := AdvanceSubmission(sh, a, f, f.pc.submission); FlagsOk(r.shared, r.fiber)
  {
  }

  lemma SubmissionKeepsFlags2(sh: Shared, a: nat, f: Fiber)
    requires f.pc.InSubmission? && !Closing(f.pc.submission) && BodyOk(sh, a, f)
    ensures var r := AdvanceSubmission(sh, a, f, f.pc.submission); FlagsOk(r.shared, r.fiber)
  {
  }

  lemma SubmissionKeepsHistory(sh: Shared, a: nat, f: Fiber)
    requires f.pc.InSubmission? && BodyOk(sh, a, f)
    ensures var r := AdvanceSubmission(sh, a, f, f.pc.submission); HistoryOk(r.shared, a, r.fiber)
  {
  }

  lemma SteeringKeepsLocals(sh: Shared, a: nat, f: Fiber)
    requires f.pc.InSteering? && LocalsOk(f)
    ensures LocalsOk(AdvanceSteering(sh, a, f, f.pc.late, f.pc.steering).fiber)
  {
  }

  lemma SteeringKeepsFlags(sh: Shared, a: nat, f: Fiber)
    requires f.pc.InSteering? && LocalsOk(f) && FlagsOk(sh, f)
    ensures var r := AdvanceSteering(sh, a, f, f.pc.late, f.pc.steering); FlagsOk(r.shared, r.fiber)
  {
  }

  lemma SteeringKeepsHistory(sh: Shared, a: nat, f: Fiber)
    requires f.pc.InSteering? && LocalsOk(f) && HistoryOk(sh, a, f)
    ensures var r := AdvanceSteering(sh, a, f, f.pc.late, f.pc.steering); HistoryOk(r.shared, a, r.fiber)
  {
  }

  lemma SteeringKeepsBody(sh: Shared, a: nat, f: Fiber)
    requires f.pc.InSteering? && BodyOk(sh, a, f)
    ensures var r := AdvanceSteering(sh, a, f, f.pc.late, f.pc.steering); BodyOk(r.shared, a, r.fiber)
  {
    SteeringKeepsLocals(sh, a, f);
    SteeringKeepsFlags(sh, a, f);
    SteeringKeepsHistory(sh, a, f);
  }

  lemma RunKeepsLocals(sh: Shared, a: nat, f: Fiber, outcome: Option<ToolBatch.Work>, verdict: AgentLoop.Verdict)
    requires f.pc.InRun? && LocalsOk(f) && (outcome.Some? ==> ToolBatch.Matched(outcome.value))
    ensures LocalsOk(AdvanceRun(sh, a, f, f.pc.run, outcome, verdict).fiber)
  {
  }

  lemma RunKeepsFlags(sh: Shared, a: nat, f: Fiber, outcome: Option<ToolBatch.Work>, verdict: AgentLoop.Verdict)
    requires f.pc.InRun? && FlagsOk(sh, f) && !f.exit.completed && (f.pc.run.StartRun? ==> f.runs > 0)
    ensures var r := AdvanceRun(sh, a, f, f.pc.run, outcome, verdict); FlagsOk(r.shared, r.fiber)
  {
  }

  lemma RunKeepsHistory(sh: Shared, a: nat, f: Fiber, outcome: Option<ToolBatch.Work>, verdict: AgentLoop.Verdict)
    requires f.pc.InRun? && HistoryOk(sh, a, f) && !f.exit.completed
    requires f.pc.run.CommitTurn? ==> f.run.work.Some?
    ensures var r := AdvanceRun(sh, a, f, f.pc.run, outcome, verdict); HistoryOk(r.shared, a, r.fiber)
  {
  }

  lemma ReleaseKeepsLocals(sh: Shared, a: nat, f: Fiber)
    requires f.pc.InRelease? && LocalsOk(f)
    ensures var r := AdvanceRelease(sh, a, f, f.pc.release); Live(r.fiber.pc) ==> LocalsOk(r.fiber)
  {
  }

  lemma ReleaseKeepsFlags(sh: Shared, a: nat, f: Fiber)
    requires f.pc.InRelease? && FlagsOk(sh, f) && HistoryOk(sh, a, f)
    ensures var r := AdvanceRelease(sh, a, f, f.pc.release);
            Live(r.fiber.pc) ==> FlagsOk(r.shared, r.fiber) && HistoryOk(r.shared, a, r.fiber)
  {
  }

  lemma ReleaseKeepsBody(sh: Shared, a: nat, f: Fiber)
    requires f.pc.InRelease? && BodyOk(sh, a, f)
    ensures var r := AdvanceRelease(sh, a, f, f.pc.release); Live(r.fiber.pc) ==> BodyOk(r.shared, a, r.fiber)
  {
    ReleaseKeepsLocals(sh, a, f);
    ReleaseKeepsFlags(sh, a, f);
  }
}
