/**
 That a run does what its loop says, read off history alone: it goes on where the loop goes on, ends where the loop
 stops, and takes its tool-less turn where the loop asks for one -- in every schedule (src/AgentRun.ts:100-210).
 */
module KernelDecisions {
  import opened Base
  import opened Kernel
  import opened KernelFiber
  import opened KernelInvariant
  import opened KernelTurns
  import AgentLoop
  import LoopDecisions
  import ToolBatch

  // -------------------------------------------------------------- a run, in history

  /** The last turn of a run, or -1. */
  function LastTurn(h: seq<Entry>, a: nat, run: nat): (i: int)
    ensures -1 <= i < |h| && (i >= 0 ==> TurnIn(h[i], a, run))
    decreases |h|
  {
    if h == [] then -1
    else if TurnIn(h[|h| - 1], a, run) then |h| - 1
    else LastTurn(h[..|h| - 1], a, run)
  }

  /** How many tool calls a run's turns have made. */
  function CallsIn(h: seq<Entry>, a: nat, run: nat): nat
    decreases |h|
  {
    if h == [] then 0
    else CallsIn(h[..|h| - 1], a, run) + (if TurnIn(h[|h| - 1], a, run) then |h[|h| - 1].work.calls| else 0)
  }

  lemma {:induction false} LastTurnIsLast(h: seq<Entry>, a: nat, run: nat, j: nat)
    requires LastTurn(h, a, run) < j < |h|
    ensures !TurnIn(h[j], a, run)
    decreases |h|
  {
    if j < |h| - 1 { LastTurnIsLast(h[..|h| - 1], a, run, j); }
  }

  lemma AppendTurn(h: seq<Entry>, e: Entry, a: nat, run: nat)
    ensures LastTurn(h + [e], a, run) == if TurnIn(e, a, run) then |h| else LastTurn(h, a, run)
    ensures CallsIn(h + [e], a, run) == CallsIn(h, a, run) + (if TurnIn(e, a, run) then |e.work.calls| else 0)
  {
    assert (h + [e])[..|h|] == h;
  }

  lemma {:induction false} CallsUpToLast(h: seq<Entry>, a: nat, run: nat)
    ensures LastTurn(h, a, run) < 0 ==> CallsIn(h, a, run) == 0
    ensures LastTurn(h, a, run) >= 0 ==> CallsIn(h[..LastTurn(h, a, run) + 1], a, run) == CallsIn(h, a, run)
    decreases |h|
  {
    if h != [] {
      var most, i := h[..|h| - 1], LastTurn(h, a, run);
      if i == |h| - 1 {
        assert h[..i + 1] == h;
      } else {
        CallsUpToLast(most, a, run);
        if i >= 0 { assert most[..i + 1] == h[..i + 1]; }
      }
    }
  }

  lemma {:induction false} NoTurnYet(h: seq<Entry>, a: nat, run: nat)
    requires forall i | 0 <= i < |h| :: !TurnIn(h[i], a, run)
    ensures LastTurn(h, a, run) == -1
    decreases |h|
  {
    if h != [] { NoTurnYet(h[..|h| - 1], a, run); }
  }

  // ------------------------------------------------------ what the loop said of a turn

  /** What the loop is asked after turn `i` of history; the clock, the output and the rest are the moment's. */
  function AskedAt(h: seq<Entry>, i: nat, ch: Choice): AgentLoop.Turn
    requires i < |h| && h[i].TurnDone?
  {
    AgentLoop.Turn(h[i].turn, CallsIn(h[..i + 1], h[i].sub, h[i].run), ch.elapsedMillis, |h[i].work.calls|,
                   ch.outputReported, ch.context)
  }

  function SaidAt(loop: AgentLoop.Loop, h: seq<Entry>, i: nat, ch: Choice): AgentLoop.Verdict
    requires i < |h| && h[i].TurnDone?
  {
    AgentLoop.Decide(loop, AskedAt(h, i, ch)).verdict
  }

  /** Asked after turn `i`, the loop went on: with a turn like any other, or with its final one. */
  ghost predicate WentOn(loop: AgentLoop.Loop, h: seq<Entry>, i: nat, final: bool)
    requires i < |h| && h[i].TurnDone?
  {
    exists ch: Choice :: var v := SaidAt(loop, h, i, ch);
      v.Decided? && (if final then v.decision.Final? else v.decision.Continue?)
  }

  /** Asked after turn `i`, the loop stopped the run. */
  ghost predicate StoppedAfter(loop: AgentLoop.Loop, h: seq<Entry>, i: nat)
    requires i < |h| && h[i].TurnDone?
  {
    exists ch: Choice :: var v := SaidAt(loop, h, i, ch); v.Decided? && v.decision.Stop?
  }

  /** A turn's place in its run: the first of it, or the next after one on which the loop went on. */
  ghost predicate InPlace(loop: AgentLoop.Loop, h: seq<Entry>, e: Entry)
    requires e.TurnDone?
  {
    var p := LastTurn(h, e.sub, e.run);
    if p < 0 then e.turn == 1 && !e.work.withheld
    else e.turn == h[p].turn + 1 && !h[p].work.withheld && WentOn(loop, h, p, e.work.withheld)
  }

  ghost predicate HistoryInPlace(loop: AgentLoop.Loop, h: seq<Entry>) {
    forall j | 0 <= j < |h| && h[j].TurnDone? :: InPlace(loop, h[..j], h[j])
  }

  /** The run ended where it should: on its final turn, or where the loop stopped it. */
  ghost predicate EndedRightly(loop: AgentLoop.Loop, h: seq<Entry>, a: nat, run: nat) {
    var p := LastTurn(h, a, run);
    p >= 0 && (h[p].work.withheld || StoppedAfter(loop, h, p))
  }

  // ------------------------------------------------------------- the fibre's side of it

  /** The fibre has left its last run's turns, and not by failing or being interrupted. */
  predicate PastItsRun(f: Fiber) {
    match f.pc
    case Unborn => false
    case InSubmission(_) => true
    case InRun(q) => q.CloseWait? || q.CloseFlag? || q.CloseUnlock?
    case InSteering(late, _) => late
    case InRelease(_) => f.exit.completed
    case Exited => f.exit.completed
  }

  /** The fibre has left the turns of run `run`, and not by failing or being interrupted in it. */
  predicate HasLeft(f: Fiber, run: nat) {
    1 <= run && (run < f.runs || (run == f.runs && PastItsRun(f)))
  }

  /** Of run number `n`, `done` turns are over, and the loop wants another. */
  ghost predicate ReadyForTurn(loop: AgentLoop.Loop, h: seq<Entry>, a: nat, n: nat, run: RunLocals, done: int) {
    var p := LastTurn(h, a, n);
    && run.tools == CallsIn(h, a, n)
    && if p < 0 then done == 0 && !run.finalTurn
       else done == h[p].turn && !h[p].work.withheld && WentOn(loop, h, p, run.finalTurn)
  }

  /** The last turn of run number `n` is the one in its locals, with its calls counted or not. */
  predicate HasTurned(h: seq<Entry>, a: nat, n: nat, run: RunLocals, counted: bool) {
    var p := LastTurn(h, a, n);
    && p >= 0 && run.work.Some? && h[p].turn == run.turn && h[p].work == run.work.value
    && h[p].work.withheld == run.finalTurn
    && CallsIn(h, a, n) == run.tools + (if counted then 0 else |h[p].work.calls|)
  }

  ghost predicate Keeping(loop: AgentLoop.Loop, h: seq<Entry>, a: nat, f: Fiber) {
    && (f.pc.Unborn? ==> f.runs == 0)
    && (f.exit.completed ==> f.pc.InRelease? || f.pc.Exited?)
    && (f.pc == InRun(StartRun) ==> LastTurn(h, a, f.runs) == -1)
    && (f.pc == InRun(CommitTurn) && f.run.work.Some? ==> f.run.work.value.withheld == f.run.finalTurn)
    && (BetweenTurns(f.pc) ==> ReadyForTurn(loop, h, a, f.runs, f.run, f.run.turn))
    && (BeforeCommit(f.pc) ==> ReadyForTurn(loop, h, a, f.runs, f.run, f.run.turn - 1))
    && (f.pc == InRun(Record) || f.pc == InRun(Decide) ==> HasTurned(h, a, f.runs, f.run, f.pc == InRun(Decide)))
  }

  ghost predicate LaterUntouched(h: seq<Entry>, a: nat, f: Fiber) {
    forall run | run > f.runs :: LastTurn(h, a, run) == -1
  }

  ghost predicate LeftRightly(loop: AgentLoop.Loop, h: seq<Entry>, a: nat, f: Fiber) {
    forall run | HasLeft(f, run) :: EndedRightly(loop, h, a, run)
  }

  ghost predicate FiberKeeps(loop: AgentLoop.Loop, h: seq<Entry>, a: nat, f: Fiber) {
    Keeping(loop, h, a, f) && LaterUntouched(h, a, f) && LeftRightly(loop, h, a, f)
  }

  // ------------------------------------------------------- every step of a fibre's own

  /** A step that leaves no run, and starts none again, keeps what is said of those left and those to come. */
  predicate LeavesNone(f: Fiber, g: Fiber) {
    if g.runs == f.runs then PastItsRun(g) ==> PastItsRun(f) || f.runs == 0
    else g.runs == f.runs + 1 && !PastItsRun(g) && (PastItsRun(f) || f.runs == 0)
  }

  lemma LeavesAlike(loop: AgentLoop.Loop, h: seq<Entry>, a: nat, f: Fiber, g: Fiber)
    requires LaterUntouched(h, a, f) && LeftRightly(loop, h, a, f) && LeavesNone(f, g)
    ensures LaterUntouched(h, a, g) && LeftRightly(loop, h, a, g)
  {
    forall run | HasLeft(g, run) ensures EndedRightly(loop, h, a, run) { assert HasLeft(f, run); }
  }

  lemma SubmissionKeeping(loop: AgentLoop.Loop, h: seq<Entry>, sh: Shared, a: nat, f: Fiber)
    requires f.pc.InSubmission? && Keeping(loop, h, a, f) && LaterUntouched(h, a, f)
    ensures var g := AdvanceSubmission(sh, a, f, f.pc.submission).fiber; Keeping(loop, h, a, g) && LeavesNone(f, g)
  {
  }

  lemma SteeringKeeping(loop: AgentLoop.Loop, h: seq<Entry>, sh: Shared, a: nat, f: Fiber)
    requires f.pc.InSteering? && Keeping(loop, h, a, f)
    ensures Keeping(loop, h, a, AdvanceSteering(sh, a, f, f.pc.late, f.pc.steering).fiber)
  {
  }

  lemma SteeringLeaves(sh: Shared, a: nat, f: Fiber)
    requires f.pc.InSteering?
    ensures LeavesNone(f, AdvanceSteering(sh, a, f, f.pc.late, f.pc.steering).fiber)
  {
  }

  lemma ReleaseKeeping(loop: AgentLoop.Loop, h: seq<Entry>, sh: Shared, a: nat, f: Fiber)
    requires f.pc.InRelease? && Keeping(loop, h, a, f)
    ensures var g := AdvanceRelease(sh, a, f, f.pc.release).fiber; Keeping(loop, h, a, g) && LeavesNone(f, g)
  {
  }

  /** The steps of a run but its commit and its decision. */
  lemma RunKeeping(
    loop: AgentLoop.Loop, h: seq<Entry>, sh: Shared, a: nat, f: Fiber, outcome: Option<ToolBatch.Work>,
    v: AgentLoop.Verdict)
    requires f.pc.InRun? && !f.pc.run.CommitTurn? && !f.pc.run.Decide? && Keeping(loop, h, a, f)
    requires outcome.Some? ==> outcome.value.withheld == f.run.finalTurn
    ensures Keeping(loop, h, a, AdvanceRun(sh, a, f, f.pc.run, outcome, v).fiber)
  {
    match f.pc.run {
      case StartRun => StartKeeping(loop, h, sh, a, f);
      case Record => RecordKeeping(loop, h, sh, a, f);
      case Think => ThinkKeeping(loop, h, sh, a, f, outcome);
      case _ =>
    }
  }

  lemma StartKeeping(loop: AgentLoop.Loop, h: seq<Entry>, sh: Shared, a: nat, f: Fiber)
    requires f.pc == InRun(StartRun) && Keeping(loop, h, a, f)
    ensures Keeping(loop, h, a, DoStartRun(sh, f).fiber)
  {
    CallsUpToLast(h, a, f.runs);
  }

  lemma RecordKeeping(loop: AgentLoop.Loop, h: seq<Entry>, sh: Shared, a: nat, f: Fiber)
    requires f.pc == InRun(Record) && Keeping(loop, h, a, f)
    ensures Keeping(loop, h, a, DoRecord(sh, f).fiber)
  {
  }

  lemma ThinkKeeping(
    loop: AgentLoop.Loop, h: seq<Entry>, sh: Shared, a: nat, f: Fiber, outcome: Option<ToolBatch.Work>)
    requires f.pc == InRun(Think) && Keeping(loop, h, a, f)
    requires outcome.Some? ==> outcome.value.withheld == f.run.finalTurn
    ensures Keeping(loop, h, a, DoThink(sh, a, f, outcome).fiber)
  {
  }

  lemma RunLeaves(sh: Shared, a: nat, f: Fiber, outcome: Option<ToolBatch.Work>, v: AgentLoop.Verdict)
    requires f.pc.InRun? && !f.pc.run.Decide? && !f.exit.completed
    ensures LeavesNone(f, AdvanceRun(sh, a, f, f.pc.run, outcome, v).fiber)
  {
  }

  /** What the fibre asks is what its last turn in history asks. */
  lemma AskedIsAskedAt(h: seq<Entry>, a: nat, f: Fiber, ch: Choice)
    requires f.pc == InRun(Decide) && HasTurned(h, a, f.runs, f.run, true)
    ensures Asked(f, ch) == AskedAt(h, LastTurn(h, a, f.runs), ch)
  {
    CallsUpToLast(h, a, f.runs);
  }

  lemma DecideKeeps(loop: AgentLoop.Loop, h: seq<Entry>, sh: Shared, a: nat, f: Fiber, ch: Choice)
    requires f.pc == InRun(Decide) && FiberKeeps(loop, h, a, f)
    ensures FiberKeeps(loop, h, a, DoDecide(sh, a, f, AgentLoop.Decide(loop, Asked(f, ch)).verdict).fiber)
  {
    var v := AgentLoop.Decide(loop, Asked(f, ch)).verdict;
    var g, p := DoDecide(sh, a, f, v).fiber, LastTurn(h, a, f.runs);
    AskedIsAskedAt(h, a, f, ch);
    assert SaidAt(loop, h, p, ch) == v;
    forall run | HasLeft(g, run) ensures EndedRightly(loop, h, a, run) {
      if !HasLeft(f, run) { assert run == f.runs && g.pc == InRun(CloseWait); }
    }
  }

  /** A history one entry longer asks and is told the same of its earlier turns. */
  lemma AppendSays(loop: AgentLoop.Loop, h: seq<Entry>, e: Entry, i: nat)
    requires i < |h| && h[i].TurnDone?
    ensures WentOn(loop, h, i, true) ==> WentOn(loop, h + [e], i, true)
    ensures WentOn(loop, h, i, false) ==> WentOn(loop, h + [e], i, false)
    ensures StoppedAfter(loop, h, i) ==> StoppedAfter(loop, h + [e], i)
  {
    assert (h + [e])[..i + 1] == h[..i + 1];
    forall ch: Choice ensures SaidAt(loop, h + [e], i, ch) == SaidAt(loop, h, i, ch) {}
  }

  lemma AppendEndsRightly(loop: AgentLoop.Loop, h: seq<Entry>, e: Entry, a: nat, run: nat)
    requires EndedRightly(loop, h, a, run) && !TurnIn(e, a, run)
    ensures EndedRightly(loop, h + [e], a, run)
  {
    AppendTurn(h, e, a, run);
    AppendSays(loop, h, e, LastTurn(h, a, run));
  }

  /** An entry that is no turn of the fibre's own. */
  lemma AppendKeeps(loop: AgentLoop.Loop, h: seq<Entry>, e: Entry, a: nat, f: Fiber)
    requires FiberKeeps(loop, h, a, f) && !TurnOf(e, a)
    ensures FiberKeeps(loop, h + [e], a, f)
  {
    AppendTurn(h, e, a, f.runs);
    var p := LastTurn(h, a, f.runs);
    if p >= 0 { AppendSays(loop, h, e, p); }
    forall run | run > f.runs ensures LastTurn(h + [e], a, run) == -1 { AppendTurn(h, e, a, run); }
    forall run | HasLeft(f, run) ensures EndedRightly(loop, h + [e], a, run) { AppendEndsRightly(loop, h, e, a, run); }
  }

  lemma CommitKeeps(loop: AgentLoop.Loop, sh: Shared, a: nat, f: Fiber)
    requires f.pc == InRun(CommitTurn) && FiberKeeps(loop, sh.history, a, f) && f.run.work.Some?
    ensures var r := DoCommitTurn(sh, a, f);
            FiberKeeps(loop, r.shared.history, a, r.fiber) && InPlace(loop, sh.history, r.shared.history[|sh.history|])
  {
    var h, r := sh.history, DoCommitTurn(sh, a, f);
    var e := r.shared.history[|h|];
    AppendTurn(h, e, a, f.runs);
    forall run | run > f.runs ensures LastTurn(h + [e], a, run) == -1 { AppendTurn(h, e, a, run); }
    forall run | HasLeft(r.fiber, run) ensures EndedRightly(loop, h + [e], a, run) {
      assert HasLeft(f, run);
      AppendEndsRightly(loop, h, e, a, run);
    }
  }

  lemma HistoryMore(loop: AgentLoop.Loop, h: seq<Entry>, e: Entry)
    requires HistoryInPlace(loop, h) && (e.TurnDone? ==> InPlace(loop, h, e))
    ensures HistoryInPlace(loop, h + [e])
  {
    var g := h + [e];
    forall j | 0 <= j < |g| && g[j].TurnDone? ensures InPlace(loop, g[..j], g[j]) {
      assert g[..j] == if j < |h| then h[..j] else h;
    }
  }

  /** The step's own part: the fibre and the history it leaves. */
  lemma AdvanceKeeps(loop: AgentLoop.Loop, sh: Shared, a: nat, f: Fiber, outcome: Option<ToolBatch.Work>, ch: Choice)
    requires FiberKeeps(loop, sh.history, a, f) && HistoryInPlace(loop, sh.history)
    requires outcome.Some? ==> outcome.value.withheld == f.run.finalTurn
    ensures var r := DoAdvance(sh, a, f, outcome, AgentLoop.Decide(loop, Asked(f, ch)).verdict);
            FiberKeeps(loop, r.shared.history, a, r.fiber) && HistoryInPlace(loop, r.shared.history)
  {
    var v := AgentLoop.Decide(loop, Asked(f, ch)).verdict;
    if f.pc == InRun(CommitTurn) {
      if f.run.work.Some? {
        CommitKeeps(loop, sh, a, f);
        HistoryMore(loop, sh.history, DoCommitTurn(sh, a, f).shared.history[|sh.history|]);
      }
    } else {
      MoveKeeps(loop, sh, a, f, outcome, ch);
      NoTurnElsewhere(sh, a, f, outcome, v);
      var r := DoAdvance(sh, a, f, outcome, v);
      if r.shared.history != sh.history {
        AppendKeeps(loop, sh.history, r.shared.history[|sh.history|], a, r.fiber);
        HistoryMore(loop, sh.history, r.shared.history[|sh.history|]);
      }
    }
  }

  lemma MoveKeeps(loop: AgentLoop.Loop, sh: Shared, a: nat, f: Fiber, outcome: Option<ToolBatch.Work>, ch: Choice)
    requires f.pc != InRun(CommitTurn) && FiberKeeps(loop, sh.history, a, f)
    requires outcome.Some? ==> outcome.value.withheld == f.run.finalTurn
    ensures FiberKeeps(loop, sh.history, a,
                       DoAdvance(sh, a, f, outcome, AgentLoop.Decide(loop, Asked(f, ch)).verdict).fiber)
  {
    var v := AgentLoop.Decide(loop, Asked(f, ch)).verdict;
    if f.pc == InRun(Decide) {
      DecideKeeps(loop, sh.history, sh, a, f, ch);
    } else {
      OtherMoveKeeps(loop, sh, a, f, outcome, v);
      LeavesAlike(loop, sh.history, a, f, DoAdvance(sh, a, f, outcome, v).fiber);
    }
  }

  lemma OtherMoveKeeps(
    loop: AgentLoop.Loop, sh: Shared, a: nat, f: Fiber, outcome: Option<ToolBatch.Work>, v: AgentLoop.Verdict)
    requires f.pc != InRun(CommitTurn) && f.pc != InRun(Decide)
    requires Keeping(loop, sh.history, a, f) && LaterUntouched(sh.history, a, f)
    requires outcome.Some? ==> outcome.value.withheld == f.run.finalTurn
    ensures var g := DoAdvance(sh, a, f, outcome, v).fiber; Keeping(loop, sh.history, a, g) && LeavesNone(f, g)
  {
    match f.pc {
      case InSubmission(_) => SubmissionKeeping(loop, sh.history, sh, a, f);
      case InSteering(_, _) =>
        SteeringKeeping(loop, sh.history, sh, a, f);
        SteeringLeaves(sh, a, f);
      case InRelease(_) => ReleaseKeeping(loop, sh.history, sh, a, f);
      case InRun(q) =>
        RunKeeping(loop, sh.history, sh, a, f, outcome, v);
        RunLeaves(sh, a, f, outcome, v);
      case _ =>
    }
  }

  /** Admission and interruption leave a fibre's runs as they are. */
  lemma AdmitKeeps(loop: AgentLoop.Loop, sh: Shared, a: nat, f: Fiber)
    requires FiberKeeps(loop, sh.history, a, f) && LocalsAdmit(f)
    ensures FiberKeeps(loop, sh.history, a, DoAdmit(sh, a, f).fiber) && DoAdmit(sh, a, f).shared.history == sh.history
  {
    var g := DoAdmit(sh, a, f).fiber;
    assert Keeping(loop, sh.history, a, g);
    LeavesAlike(loop, sh.history, a, f, g);
  }

  lemma LeaveKeeps(loop: AgentLoop.Loop, sh: Shared, a: nat, f: Fiber)
    requires FiberKeeps(loop, sh.history, a, f) && Abortable(f)
    ensures FiberKeeps(loop, sh.history, a, Leave(sh, a, f).fiber) && Leave(sh, a, f).shared.history == sh.history
  {
    var g := Leave(sh, a, f).fiber;
    assert Keeping(loop, sh.history, a, g);
    LeavesAlike(loop, sh.history, a, f, g);
  }

  /** A fibre not yet forked has no program counter yet. */
  predicate LocalsAdmit(f: Fiber) {
    f.admission.Zeroed? ==> f.pc.Unborn?
  }

  // ------------------------------------------------------------------- every schedule

  ghost predicate AllKeep(loop: AgentLoop.Loop, s: State) {
    && HistoryInPlace(loop, s.shared.history)
    && (forall a | a in s.fibers :: FiberKeeps(loop, s.shared.history, a, s.fibers[a]))
  }

  lemma OthersKeep(loop: AgentLoop.Loop, sh: Shared, a: nat, r: Stepped, b: nat, f: Fiber)
    requires FiberKeeps(loop, sh.history, b, f) && b != a && HistoryMoved(sh, a, r)
    ensures FiberKeeps(loop, r.shared.history, b, f)
  {
    if r.shared.history != sh.history { AppendKeeps(loop, sh.history, r.shared.history[|sh.history|], b, f); }
  }

  lemma CommittedKeeps(loop: AgentLoop.Loop, s: State, a: nat, r: Stepped)
    requires AllKeep(loop, s) && a in s.fibers && HistoryMoved(s.shared, a, r)
    requires FiberKeeps(loop, r.shared.history, a, r.fiber) && HistoryInPlace(loop, r.shared.history)
    ensures AllKeep(loop, Kernel.Committed(s, a, r))
  {
    var t := Kernel.Committed(s, a, r);
    forall b | b in t.fibers ensures FiberKeeps(loop, t.shared.history, b, t.fibers[b]) {
      if b != a { OthersKeep(loop, s.shared, a, r, b, s.fibers[b]); }
    }
  }

  lemma AdvanceActKeeps(loop: AgentLoop.Loop, s: State, a: nat, ch: Choice)
    requires Inv(s) && AllKeep(loop, s) && a in s.fibers
    ensures AllKeep(loop, Advanced(s, a, OutcomeOf(s.fibers[a], ch), ch, loop))
  {
    var outcome, v := OutcomeOf(s.fibers[a], ch), AgentLoop.Decide(loop, Asked(s.fibers[a], ch)).verdict;
    AdvancedHistory(s, a, outcome, v);
    AdvancedKeeps(loop, s, a, outcome, ch);
  }

  lemma AdvancedKeeps(loop: AgentLoop.Loop, s: State, a: nat, outcome: Option<ToolBatch.Work>, ch: Choice)
    requires AllKeep(loop, s) && a in s.fibers
    requires outcome.Some? ==> outcome.value.withheld == s.fibers[a].run.finalTurn
    requires HistoryMoved(
               s.shared, a,
               DoAdvance(s.shared, a, s.fibers[a], outcome, AgentLoop.Decide(loop, Asked(s.fibers[a], ch)).verdict))
    ensures AllKeep(loop, Advanced(s, a, outcome, ch, loop))
  {
    var v := AgentLoop.Decide(loop, Asked(s.fibers[a], ch)).verdict;
    AdvanceKeeps(loop, s.shared, a, s.fibers[a], outcome, ch);
    CommittedKeeps(loop, s, a, DoAdvance(s.shared, a, s.fibers[a], outcome, v));
  }

  lemma AdmissionActKeeps(loop: AgentLoop.Loop, s: State, act: Act)
    requires AllKeep(loop, s) && (act.Admit? || act.Abort?) && act.sub in s.fibers && LocalsAdmit(s.fibers[act.sub])
    ensures AllKeep(loop, Step(s, act, loop))
  {
    var a := act.sub;
    if act.Admit? {
      AdmitKeeps(loop, s.shared, a, s.fibers[a]);
      CommittedKeeps(loop, s, a, DoAdmit(s.shared, a, s.fibers[a]));
    } else if Abortable(s.fibers[a]) {
      LeaveKeeps(loop, s.shared, a, s.fibers[a]);
      CommittedKeeps(loop, s, a, Leave(s.shared, a, s.fibers[a]));
    }
  }

  lemma ClaimActKeeps(loop: AgentLoop.Loop, s: State, body: nat)
    requires Shape(s) && AllKeep(loop, s)
    ensures AllKeep(loop, DoClaim(s, body))
  {
    var t, n, h := DoClaim(s, body), s.shared.state.count + 1, s.shared.history;
    if s.shared.state.status.Idle? {
      forall run ensures LastTurn(h, n, run) == -1 { NoTurnYet(h, n, run); }
      forall b | b in t.fibers ensures FiberKeeps(loop, t.shared.history, b, t.fibers[b]) {
        if b != n { assert FiberKeeps(loop, h, b, s.fibers[b]); }
      }
    }
  }

  /** What is said of a fibre is said of its locals, and not of what was accepted for it. */
  predicate SameTurns(f: Fiber, g: Fiber) {
    g.pc == f.pc && g.run == f.run && g.runs == f.runs && g.exit == f.exit
  }

  lemma SameTurnsKeep(loop: AgentLoop.Loop, h: seq<Entry>, a: nat, f: Fiber, g: Fiber)
    requires FiberKeeps(loop, h, a, f) && SameTurns(f, g)
    ensures FiberKeeps(loop, h, a, g)
  {
    assert forall run | HasLeft(g, run) :: HasLeft(f, run);
  }

  ghost predicate SameLocals(s: State, t: State) {
    t.shared.history == s.shared.history
    && forall a | a in t.fibers :: a in s.fibers && SameTurns(s.fibers[a], t.fibers[a])
  }

  lemma InputLeavesLocals(s: State, c: nat, k: Caller)
    requires k.Offering?
    ensures SameLocals(s, DoInput(s, c, k))
  {
    if k.at.Accepting? { assert SameLocals(s, DoOffer(s, c, k)); }
    else if k.at.Offered? { assert SameLocals(s, DoAnnounce(s, c, k)); }
    else { assert DoInput(s, c, k).fibers == s.fibers; }
  }

  lemma CallerActKeeps(loop: AgentLoop.Loop, s: State, act: Act)
    requires AllKeep(loop, s) && (act.Call? || act.Proceed? || act.CloseSession?)
    ensures AllKeep(loop, Step(s, act, loop))
  {
    var t := Step(s, act, loop);
    if act.Proceed? && act.caller in s.callers && s.callers[act.caller].Offering? {
      InputLeavesLocals(s, act.caller, s.callers[act.caller]);
    }
    assert SameLocals(s, t);
    forall a | a in t.fibers ensures FiberKeeps(loop, t.shared.history, a, t.fibers[a]) {
      SameTurnsKeep(loop, s.shared.history, a, s.fibers[a], t.fibers[a]);
    }
  }

  lemma ForkingIsUnborn(s: State, a: nat)
    requires Shape(s) && ActiveOk(s) && AllFibersOk(s) && a in s.fibers
    ensures LocalsAdmit(s.fibers[a])
  {
    assert FiberOk(s, a);
  }

  lemma StepKeeps(loop: AgentLoop.Loop, s: State, act: Act)
    requires Inv(s) && AllKeep(loop, s)
    ensures AllKeep(loop, Step(s, act, loop))
  {
    if act.Advance? { if act.sub in s.fibers { AdvanceActKeeps(loop, s, act.sub, act.choice); } }
    else if act.Admit? || act.Abort? {
      if act.sub in s.fibers {
        ForkingIsUnborn(s, act.sub);
        AdmissionActKeeps(loop, s, act);
      }
    }
    else if act.Claim? { ClaimActKeeps(loop, s, act.body); }
    else { CallerActKeeps(loop, s, act); }
  }

  lemma {:induction false} AlwaysKeeps(seed: seq<nat>, acts: seq<Act>, loop: AgentLoop.Loop)
    ensures AllKeep(loop, After(seed, acts, loop))
    decreases |acts|
  {
    if acts != [] {
      AlwaysKeeps(seed, acts[..|acts| - 1], loop);
      Always(seed, acts[..|acts| - 1], loop);
      StepKeeps(loop, After(seed, acts[..|acts| - 1], loop), acts[|acts| - 1]);
    }
  }

  // ---------------------------------------------------------------------- theorems

  /**
   MAIN: no run ends early. In every schedule, a fibre that has left a run, and neither failed nor was interrupted in
   it, left it after a turn -- the run's final one, or one after which the loop, asked about that very turn, stopped.
   */
  lemma RunEndsWhereTheLoopStops(seed: seq<nat>, acts: seq<Act>, loop: AgentLoop.Loop, a: nat, run: nat)
    ensures var s := After(seed, acts, loop);
            a in s.fibers && HasLeft(s.fibers[a], run) ==>
              var h := s.shared.history;
              var p := LastTurn(h, a, run);
              p >= 0 && (h[p].work.withheld || StoppedAfter(loop, h, p))
  {
    AlwaysKeeps(seed, acts, loop);
  }

  lemma PrefixSays(loop: AgentLoop.Loop, h: seq<Entry>, j: nat, p: nat, final: bool)
    requires p < j <= |h| && h[p].TurnDone? && WentOn(loop, h[..j], p, final)
    ensures WentOn(loop, h, p, final)
  {
    assert h[..j][..p + 1] == h[..p + 1];
    forall ch: Choice ensures SaidAt(loop, h, p, ch) == SaidAt(loop, h[..j], p, ch) {}
  }

  /**
   MAIN: nor does one go on, or withhold its tools, of itself. In every schedule the turns of a run are numbered 1, 2,
   3 and so on, each but the first follows one after which the loop went on, and a turn has its tools withheld exactly
   when the loop asked for a final turn there; nothing follows it.
   */
  lemma RunGoesOnWhereTheLoopDoes(seed: seq<nat>, acts: seq<Act>, loop: AgentLoop.Loop, j: nat)
    ensures var h := After(seed, acts, loop).shared.history;
            j < |h| && h[j].TurnDone? ==>
              var p := LastTurn(h[..j], h[j].sub, h[j].run);
              if p < 0 then h[j].turn == 1 && !h[j].work.withheld
              else h[j].turn == h[p].turn + 1 && !h[p].work.withheld && WentOn(loop, h, p, h[j].work.withheld)
  {
    AlwaysKeeps(seed, acts, loop);
    var h := After(seed, acts, loop).shared.history;
    if j < |h| && h[j].TurnDone? {
      assert InPlace(loop, h[..j], h[j]);
      var p := LastTurn(h[..j], h[j].sub, h[j].run);
      if p >= 0 { PrefixSays(loop, h, j, p, h[j].work.withheld); }
    }
  }

  /** The loop stops on a turn without calls. */
  lemma {:induction false} NothingFollowsIdle(
    seed: seq<nat>, acts: seq<Act>, loop: AgentLoop.Loop, a: nat, run: nat, i: nat, j: nat)
    requires LoopDecisions.StopsIdle(loop)
    requires var h := After(seed, acts, loop).shared.history;
             i < j < |h| && TurnIn(h[i], a, run) && TurnIn(h[j], a, run)
    ensures After(seed, acts, loop).shared.history[i].work.calls != []
    decreases j
  {
    var h := After(seed, acts, loop).shared.history;
    var p := LastTurn(h[..j], a, run);
    if p < i { LastTurnIsLast(h[..j], a, run, i); }
    if p > i {
      NothingFollowsIdle(seed, acts, loop, a, run, i, p);
    } else {
      RunGoesOnWhereTheLoopDoes(seed, acts, loop, j);
      WentOnCalled(loop, h, i, h[j].work.withheld);
    }
  }

  lemma WentOnCalled(loop: AgentLoop.Loop, h: seq<Entry>, i: nat, final: bool)
    requires LoopDecisions.StopsIdle(loop) && i < |h| && h[i].TurnDone? && WentOn(loop, h, i, final)
    ensures h[i].work.calls != []
  {
    var ch: Choice :| var v := SaidAt(loop, h, i, ch);
      v.Decided? && (if final then v.decision.Final? else v.decision.Continue?);
    assert SaidAt(loop, h, i, ch) == LoopDecisions.Verdicts(loop, AskedAt(h, i, ch));
  }

  /** MAIN: under `untilIdle` and every `limits`, no turn of a run follows one in which the model called nothing. */
  lemma IdleIsLast(
    seed: seq<nat>, acts: seq<Act>, maxTurns: Option<nat>, maxToolCalls: Option<nat>, maxDuration: Option<real>,
    on: AgentLoop.OnExhaustion, a: nat, run: nat, i: nat, j: nat)
    ensures var h := After(seed, acts, AgentLoop.UntilIdle).shared.history;
            i < j < |h| && TurnIn(h[i], a, run) && TurnIn(h[j], a, run) ==> h[i].work.calls != []
    ensures var h := After(seed, acts, AgentLoop.Limits(maxTurns, maxToolCalls, maxDuration, on)).shared.history;
            i < j < |h| && TurnIn(h[i], a, run) && TurnIn(h[j], a, run) ==> h[i].work.calls != []
  {
    LoopDecisions.LimitsStopIdle(maxTurns, maxToolCalls, maxDuration, on);
    IdleIsLastOf(seed, acts, AgentLoop.UntilIdle, a, run, i, j);
    IdleIsLastOf(seed, acts, AgentLoop.Limits(maxTurns, maxToolCalls, maxDuration, on), a, run, i, j);
  }

  lemma IdleIsLastOf(seed: seq<nat>, acts: seq<Act>, loop: AgentLoop.Loop, a: nat, run: nat, i: nat, j: nat)
    requires LoopDecisions.StopsIdle(loop)
    ensures var h := After(seed, acts, loop).shared.history;
            i < j < |h| && TurnIn(h[i], a, run) && TurnIn(h[j], a, run) ==> h[i].work.calls != []
  {
    var h := After(seed, acts, loop).shared.history;
    if i < j < |h| && TurnIn(h[i], a, run) && TurnIn(h[j], a, run) {
      NothingFollowsIdle(seed, acts, loop, a, run, i, j);
    }
  }

  /**
   MAIN: and under `untilIdle` it takes every turn up to that one: a run left without failure or interruption has
   called something on every turn but its last, and nothing on its last.
   */
  lemma IdleIsReached(seed: seq<nat>, acts: seq<Act>, a: nat, run: nat)
    ensures var s := After(seed, acts, AgentLoop.UntilIdle);
            a in s.fibers && HasLeft(s.fibers[a], run) ==>
              var p := LastTurn(s.shared.history, a, run);
              p >= 0 && s.shared.history[p].work.calls == []
  {
    var s := After(seed, acts, AgentLoop.UntilIdle);
    if a in s.fibers && HasLeft(s.fibers[a], run) {
      RunEndsWhereTheLoopStops(seed, acts, AgentLoop.UntilIdle, a, run);
      IdleStops(seed, acts, LastTurn(s.shared.history, a, run));
    }
  }

  lemma IdleStops(seed: seq<nat>, acts: seq<Act>, p: nat)
    requires var h := After(seed, acts, AgentLoop.UntilIdle).shared.history;
             p < |h| && h[p].TurnDone? && (h[p].work.withheld || StoppedAfter(AgentLoop.UntilIdle, h, p))
    ensures After(seed, acts, AgentLoop.UntilIdle).shared.history[p].work.calls == []
  {
    var h := After(seed, acts, AgentLoop.UntilIdle).shared.history;
    if h[p].work.withheld {
      RunGoesOnWhereTheLoopDoes(seed, acts, AgentLoop.UntilIdle, p);
    }
  }
}
