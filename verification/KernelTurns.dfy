/** How many turns a run takes, and which of them is the loop's final one. */
module KernelTurns {
  import opened Base
  import opened Kernel
  import opened KernelFiber
  import opened KernelInvariant
  import AgentLoop
  import ToolBatch

  /** `n` bounds the turns of a run; `final` allows one more, with tools withheld. */
  datatype Limit = Limit(n: nat, final: bool)

  predicate BetweenTurns(pc: PC) {
    pc == InRun(StartTurn) || (pc.InSteering? && !pc.late)
  }

  predicate BeforeCommit(pc: PC) {
    pc == InRun(Derive) || pc == InRun(Think) || pc == InRun(CommitTurn)
  }

  predicate BoundOk(f: Fiber, limit: Limit) {
    && (f.run.finalTurn ==> limit.final)
    && (BetweenTurns(f.pc) ==> if f.run.finalTurn then f.run.turn <= limit.n else f.run.turn < limit.n)
    && (f.pc.InRun? ==> f.run.turn <= limit.n + (if f.run.finalTurn then 1 else 0) || f.pc.run.StartRun?)
    && (BeforeCommit(f.pc) ==> f.run.turn >= 1)
    && (f.pc == InRun(CommitTurn) && f.run.work.Some? ==> f.run.work.value.withheld == f.run.finalTurn)
  }

  predicate EntryOk(e: Entry, limit: Limit) {
    e.TurnDone? ==>
      && 1 <= e.turn <= limit.n + (if e.work.withheld then 1 else 0) && (e.work.withheld ==> limit.final)
  }

  /** Turns of one run are numbered upwards, and nothing follows a turn whose tools were withheld. */
  ghost predicate Ordered(h: seq<Entry>) {
    forall i, j | 0 <= i < j < |h| && h[i].TurnDone? && h[j].TurnDone?
                  && h[i].sub == h[j].sub && h[i].run == h[j].run ::
      h[i].turn < h[j].turn && !h[i].work.withheld
  }

  /** What a fibre's locals say of an earlier turn of its own submission. */
  predicate EarlierOk(e: Entry, f: Fiber) {
    && e.TurnDone? && e.run <= f.runs
    && (f.pc == InRun(StartRun) ==> e.run < f.runs)
    && (e.run == f.runs && BetweenTurns(f.pc) ==> e.turn <= f.run.turn && !e.work.withheld)
    && (e.run == f.runs && BeforeCommit(f.pc) ==> e.turn < f.run.turn && !e.work.withheld)
    && (e.run == f.runs && (f.pc == InRun(Record) || f.pc == InRun(Decide)) ==>
          e.turn <= f.run.turn && (e.work.withheld ==> f.run.finalTurn))
  }

  ghost predicate CurrentOk(h: seq<Entry>, a: nat, f: Fiber) {
    forall i | 0 <= i < |h| && TurnOf(h[i], a) :: EarlierOk(h[i], f)
  }

  ghost predicate TurnsOk(h: seq<Entry>, a: nat, f: Fiber, limit: Limit) {
    && BoundOk(f, limit) && CurrentOk(h, a, f) && Ordered(h)
    && (forall i | 0 <= i < |h| :: EntryOk(h[i], limit))
  }

  /** The loop keeps to the limit. */
  predicate Keeps(verdict: AgentLoop.Verdict, f: Fiber, limit: Limit) {
    (f.run.turn >= limit.n ==> AgentLoop.Ends(verdict)) && (!limit.final ==> AgentLoop.NotFinal(verdict))
  }

  /** Every step but the commit leaves history and, for these purposes, moves only the fibre. */
  ghost predicate FiberMoves(f: Fiber, g: Fiber, limit: Limit) {
    && BoundOk(g, limit)
    && (forall e: Entry | EarlierOk(e, f) :: EarlierOk(e, g))
  }

  lemma SubmissionTurns(sh: Shared, a: nat, f: Fiber, limit: Limit)
    requires f.pc.InSubmission? && BoundOk(f, limit)
    ensures FiberMoves(f, AdvanceSubmission(sh, a, f, f.pc.submission).fiber, limit)
  {
  }

  lemma SteeringTurns(sh: Shared, a: nat, f: Fiber, limit: Limit)
    requires f.pc.InSteering? && BoundOk(f, limit)
    ensures FiberMoves(f, AdvanceSteering(sh, a, f, f.pc.late, f.pc.steering).fiber, limit)
  {
  }

  lemma RunTurns(
    sh: Shared, a: nat, f: Fiber, outcome: Option<ToolBatch.Work>, verdict: AgentLoop.Verdict, limit: Limit)
    requires f.pc.InRun? && !f.pc.run.CommitTurn? && BoundOk(f, limit) && limit.n >= 1 && Keeps(verdict, f, limit)
    requires outcome.Some? ==> outcome.value.withheld == f.run.finalTurn
    ensures FiberMoves(f, AdvanceRun(sh, a, f, f.pc.run, outcome, verdict).fiber, limit)
  {
  }

  lemma CommitTurns(sh: Shared, a: nat, f: Fiber, limit: Limit)
    requires f.pc == InRun(CommitTurn) && TurnsOk(sh.history, a, f, limit)
    ensures var r := DoCommitTurn(sh, a, f); TurnsOk(r.shared.history, a, r.fiber, limit)
  {
    var r := DoCommitTurn(sh, a, f);
    var h, g := sh.history, r.shared.history;
    forall i | 0 <= i < |g| && TurnOf(g[i], a) ensures EarlierOk(g[i], r.fiber) {
      if i < |h| { assert g[i] == h[i] && EarlierOk(h[i], f); }
    }
  }

  lemma AppendKeepsTurns(h: seq<Entry>, e: Entry, a: nat, f: Fiber, g: Fiber, limit: Limit)
    requires TurnsOk(h, a, f, limit) && !e.TurnDone? && FiberMoves(f, g, limit)
    ensures TurnsOk(h + [e], a, g, limit) && TurnsOk(h, a, g, limit)
  {
    var t := h + [e];
    forall i | 0 <= i < |t| && TurnOf(t[i], a) ensures EarlierOk(t[i], g) {
      assert t[i] == h[i] && EarlierOk(h[i], f);
    }
  }

  lemma NoTurnElsewhere(sh: Shared, a: nat, f: Fiber, outcome: Option<ToolBatch.Work>, verdict: AgentLoop.Verdict)
    requires f.pc != InRun(CommitTurn)
    ensures var r := DoAdvance(sh, a, f, outcome, verdict);
            || r.shared.history == sh.history
            || (|r.shared.history| == |sh.history| + 1
                && r.shared.history == sh.history + [r.shared.history[|sh.history|]]
                && !r.shared.history[|sh.history|].TurnDone?)
  {
  }

  lemma AdvanceMovesTurns(
    sh: Shared, a: nat, f: Fiber, outcome: Option<ToolBatch.Work>, verdict: AgentLoop.Verdict, limit: Limit)
    requires f.pc != InRun(CommitTurn) && BoundOk(f, limit) && limit.n >= 1 && Keeps(verdict, f, limit)
    requires outcome.Some? ==> outcome.value.withheld == f.run.finalTurn
    ensures FiberMoves(f, DoAdvance(sh, a, f, outcome, verdict).fiber, limit)
  {
    match f.pc {
      case InSubmission(_) => SubmissionTurns(sh, a, f, limit);
      case InSteering(_, _) => SteeringTurns(sh, a, f, limit);
      case InRun(_) => RunTurns(sh, a, f, outcome, verdict, limit);
      case _ =>
    }
  }

  lemma AdvanceKeepsTurns(
    sh: Shared, a: nat, f: Fiber, outcome: Option<ToolBatch.Work>, verdict: AgentLoop.Verdict, limit: Limit)
    requires TurnsOk(sh.history, a, f, limit) && limit.n >= 1 && Keeps(verdict, f, limit)
    requires outcome.Some? ==> outcome.value.withheld == f.run.finalTurn
    ensures var r := DoAdvance(sh, a, f, outcome, verdict); TurnsOk(r.shared.history, a, r.fiber, limit)
  {
    if f.pc == InRun(CommitTurn) {
      CommitTurns(sh, a, f, limit);
    } else {
      var r := DoAdvance(sh, a, f, outcome, verdict);
      AdvanceMovesTurns(sh, a, f, outcome, verdict, limit);
      NoTurnElsewhere(sh, a, f, outcome, verdict);
      var e := if |r.shared.history| > |sh.history| then r.shared.history[|sh.history|] else Seeded(0);
      AppendKeepsTurns(sh.history, e, a, f, r.fiber, limit);
    }
  }

  // ------------------------------------------------------------- every run

  ghost predicate AllTurnsOk(s: State, limit: Limit) {
    && (forall a | a in s.fibers :: TurnsOk(s.shared.history, a, s.fibers[a], limit))
    && Ordered(s.shared.history) && (forall i | 0 <= i < |s.shared.history| :: EntryOk(s.shared.history[i], limit))
  }

  /** Other submissions' turns are untouched by an append. */
  lemma OthersKeepTurns(h: seq<Entry>, g: seq<Entry>, a: nat, b: nat, f: Fiber, limit: Limit)
    requires TurnsOk(h, b, f, limit) && a != b && Ordered(g) && (forall i | 0 <= i < |g| :: EntryOk(g[i], limit))
    requires g == h || (|g| == |h| + 1 && g == h + [g[|h|]] && SubOf(g[|h|]) == a)
    ensures TurnsOk(g, b, f, limit)
  {
    forall i | 0 <= i < |g| && TurnOf(g[i], b) ensures EarlierOk(g[i], f) {
      assert g[i] == h[i] && EarlierOk(h[i], f);
    }
  }

  lemma CommittedKeepsTurns(s: State, a: nat, r: Stepped, limit: Limit)
    requires AllTurnsOk(s, limit) && a in s.fibers && HistoryMoved(s.shared, a, r)
    requires TurnsOk(r.shared.history, a, r.fiber, limit)
    ensures AllTurnsOk(Committed(s, a, r), limit)
  {
    var t := Committed(s, a, r);
    forall b | b in t.fibers ensures TurnsOk(t.shared.history, b, t.fibers[b], limit) {
      if b != a {
        OthersKeepTurns(s.shared.history, r.shared.history, a, b, s.fibers[b], limit);
      }
    }
  }

  lemma AdmitKeepsTurns(sh: Shared, a: nat, f: Fiber, limit: Limit)
    requires TurnsOk(sh.history, a, f, limit)
    ensures var r := DoAdmit(sh, a, f);
            && r.shared.history == sh.history
            && (LocalsOk(f) || Registered(f) ==> TurnsOk(r.shared.history, a, r.fiber, limit))
    ensures var r := Leave(sh, a, f); r.shared.history == sh.history && TurnsOk(r.shared.history, a, r.fiber, limit)
  {
  }

  lemma AdvancedHistory(s: State, a: nat, outcome: Option<ToolBatch.Work>, verdict: AgentLoop.Verdict)
    requires Inv(s) && a in s.fibers && (outcome.Some? ==> ToolBatch.Matched(outcome.value))
    ensures HistoryMoved(s.shared, a, DoAdvance(s.shared, a, s.fibers[a], outcome, verdict))
  {
    InvReady(s, a);
    AdvanceStepOk(s.shared, a, s.fibers[a], outcome, verdict, Mine(s, a));
  }

  /** What the loop says of any turn it is asked about keeps to its limit. */
  ghost predicate Bounds(loop: AgentLoop.Loop, limit: Limit) {
    limit.n >= 1 && AgentLoop.EndsBy(loop, limit.n) && (limit.final || AgentLoop.NeverAsksFinal(loop))
  }

  lemma BoundsKeep(loop: AgentLoop.Loop, f: Fiber, ch: Choice, limit: Limit)
    requires Bounds(loop, limit)
    ensures Keeps(AgentLoop.Decide(loop, Asked(f, ch)).verdict, f, limit)
  {
    assert Asked(f, ch).turnIndex == f.run.turn;
  }

  lemma AdvancedTurns(s: State, a: nat, outcome: Option<ToolBatch.Work>, verdict: AgentLoop.Verdict, limit: Limit)
    requires Inv(s) && AllTurnsOk(s, limit) && a in s.fibers && (outcome.Some? ==> ToolBatch.Matched(outcome.value))
    requires limit.n >= 1 && Keeps(verdict, s.fibers[a], limit)
    requires outcome.Some? ==> outcome.value.withheld == s.fibers[a].run.finalTurn
    ensures AllTurnsOk(Committed(s, a, DoAdvance(s.shared, a, s.fibers[a], outcome, verdict)), limit)
  {
    AdvancedHistory(s, a, outcome, verdict);
    AdvanceKeepsTurns(s.shared, a, s.fibers[a], outcome, verdict, limit);
    CommittedKeepsTurns(s, a, DoAdvance(s.shared, a, s.fibers[a], outcome, verdict), limit);
  }

  /** A step that appends nothing, and leaves each fibre where it was. */
  ghost predicate SameRuns(s: State, t: State) {
    && t.shared.history == s.shared.history
    && forall a | a in t.fibers :: a in s.fibers && t.fibers[a].pc == s.fibers[a].pc
                                   && t.fibers[a].run == s.fibers[a].run && t.fibers[a].runs == s.fibers[a].runs
  }

  lemma StillTurns(s: State, t: State, limit: Limit)
    requires AllTurnsOk(s, limit) && SameRuns(s, t)
    ensures AllTurnsOk(t, limit)
  {
    forall a | a in t.fibers ensures TurnsOk(t.shared.history, a, t.fibers[a], limit) {
      var h := s.shared.history;
      forall i | 0 <= i < |h| && TurnOf(h[i], a) ensures EarlierOk(h[i], t.fibers[a]) {
        assert TurnsOk(h, a, s.fibers[a], limit) && EarlierOk(h[i], s.fibers[a]);
      }
    }
  }

  lemma ClaimTurns(s: State, body: nat, limit: Limit)
    requires Shape(s) && AllTurnsOk(s, limit) && limit.n >= 1
    ensures AllTurnsOk(DoClaim(s, body), limit)
  {
    var t := DoClaim(s, body);
    forall a | a in t.fibers ensures TurnsOk(t.shared.history, a, t.fibers[a], limit) {
      if a in s.fibers { assert TurnsOk(s.shared.history, a, s.fibers[a], limit); }
    }
  }

  lemma AdmitTurns(s: State, a: nat, limit: Limit)
    requires AllTurnsOk(s, limit) && a in s.fibers && FiberOk(s, a) && ActiveOk(s) && Shape(s)
    ensures AllTurnsOk(Committed(s, a, DoAdmit(s.shared, a, s.fibers[a])), limit)
  {
    AdmitKeepsTurns(s.shared, a, s.fibers[a], limit);
    CommittedKeepsTurns(s, a, DoAdmit(s.shared, a, s.fibers[a]), limit);
  }

  lemma LeaveTurns(s: State, a: nat, limit: Limit)
    requires AllTurnsOk(s, limit) && a in s.fibers
    ensures AllTurnsOk(Committed(s, a, Leave(s.shared, a, s.fibers[a])), limit)
  {
    AdmitKeepsTurns(s.shared, a, s.fibers[a], limit);
    CommittedKeepsTurns(s, a, Leave(s.shared, a, s.fibers[a]), limit);
  }

  lemma CallerTurns(s: State, act: Act, loop: AgentLoop.Loop, limit: Limit)
    requires AllTurnsOk(s, limit) && (act.Call? || act.Proceed? || act.CloseSession?)
    ensures AllTurnsOk(Step(s, act, loop), limit)
  {
    CallerLeavesRuns(s, act, loop);
    StillTurns(s, Step(s, act, loop), limit);
  }

  lemma CallerLeavesRuns(s: State, act: Act, loop: AgentLoop.Loop)
    requires act.Call? || act.Proceed? || act.CloseSession?
    ensures SameRuns(s, Step(s, act, loop))
  {
    if act.Proceed? && act.caller in s.callers && s.callers[act.caller].Offering? {
      InputLeavesRuns(s, act.caller, s.callers[act.caller]);
    }
  }

  lemma InputLeavesRuns(s: State, c: nat, k: Caller)
    requires k.Offering?
    ensures SameRuns(s, DoInput(s, c, k))
  {
    if k.at.Accepting? { assert SameRuns(s, DoOffer(s, c, k)); }
    else if k.at.Offered? { assert SameRuns(s, DoAnnounce(s, c, k)); }
    else { assert DoInput(s, c, k).fibers == s.fibers; }
  }

  lemma AdvanceActTurns(s: State, a: nat, ch: Choice, loop: AgentLoop.Loop, limit: Limit)
    requires Inv(s) && AllTurnsOk(s, limit) && Bounds(loop, limit) && a in s.fibers
    ensures AllTurnsOk(Advanced(s, a, OutcomeOf(s.fibers[a], ch), ch, loop), limit)
  {
    var outcome, verdict := OutcomeOf(s.fibers[a], ch), AgentLoop.Decide(loop, Asked(s.fibers[a], ch)).verdict;
    BoundsKeep(loop, s.fibers[a], ch, limit);
    AdvancedTurns(s, a, outcome, verdict, limit);
  }

  lemma StepTurns(s: State, act: Act, loop: AgentLoop.Loop, limit: Limit)
    requires Inv(s) && AllTurnsOk(s, limit) && Bounds(loop, limit)
    ensures AllTurnsOk(Step(s, act, loop), limit)
  {
    if act.Advance? { if act.sub in s.fibers { AdvanceActTurns(s, act.sub, act.choice, loop, limit); } }
    else if act.Admit? || act.Abort? { AdmissionTurns(s, act, loop, limit); }
    else if act.Claim? { ClaimTurns(s, act.body, limit); }
    else { CallerTurns(s, act, loop, limit); }
  }

  lemma AdmissionTurns(s: State, act: Act, loop: AgentLoop.Loop, limit: Limit)
    requires Shape(s) && ActiveOk(s) && AllFibersOk(s) && AllTurnsOk(s, limit) && (act.Admit? || act.Abort?)
    ensures AllTurnsOk(Step(s, act, loop), limit)
  {
    if act.sub in s.fibers {
      assert FiberOk(s, act.sub);
      if act.Admit? { AdmitTurns(s, act.sub, limit); } else { LeaveTurns(s, act.sub, limit); }
    }
  }

  lemma {:induction false} AlwaysTurns(seed: seq<nat>, acts: seq<Act>, loop: AgentLoop.Loop, limit: Limit)
    requires Bounds(loop, limit)
    ensures AllTurnsOk(After(seed, acts, loop), limit)
    decreases |acts|
  {
    if acts != [] {
      AlwaysTurns(seed, acts[..|acts| - 1], loop, limit);
      Always(seed, acts[..|acts| - 1], loop);
      StepTurns(After(seed, acts[..|acts| - 1], loop), acts[|acts| - 1], loop, limit);
    }
  }

  // ---------------------------------------------------------------- theorems

  /**
   MAIN: under any loop that bounds its turns by `n`, hand-written ones included, in every schedule, no run
   commits a turn past `n` but the one whose tools are withheld, which may be turn `n + 1`; that one is the last
   of its run, and the turns of a run are numbered in the order they were committed. Late steering adds none.
   */
  lemma TurnsBounded(seed: seq<nat>, acts: seq<Act>, loop: AgentLoop.Loop, n: nat, i: nat, j: nat)
    requires AgentLoop.EndsBy(loop, n)
    ensures var h := After(seed, acts, loop).shared.history;
            && (i < |h| && h[i].TurnDone? ==> 1 <= h[i].turn <= Max(n, 1) + (if h[i].work.withheld then 1 else 0))
            && (i < j < |h| && h[i].TurnDone? && h[j].TurnDone? && h[i].sub == h[j].sub && h[i].run == h[j].run ==>
                  h[i].turn < h[j].turn && !h[i].work.withheld)
  {
    var limit := Limit(Max(n, 1), true);
    AlwaysTurns(seed, acts, loop, limit);
  }

  /** MAIN: on a turn whose tools were withheld, every result is a refusal, or comes of the harness's own tool. */
  lemma WithheldRunsNothing(seed: seq<nat>, acts: seq<Act>, loop: AgentLoop.Loop, i: nat, k: nat)
    ensures var h := After(seed, acts, loop).shared.history;
            i < |h| && h[i].TurnDone? && h[i].work.withheld && k < |h[i].work.calls| ==>
              k < |h[i].work.parts| && (h[i].work.parts[k].payload.Refusal? || h[i].work.calls[k].name in h[i].work.own)
  {
    Always(seed, acts, loop);
  }

  /** MAIN: `limits({ maxTurns: n })` takes at most `n` turns a run, and one more only with a final answer. */
  lemma LimitsHold(
    seed: seq<nat>, acts: seq<Act>, n: nat, calls: Option<nat>, duration: Option<real>,
    on: AgentLoop.OnExhaustion, i: nat)
    ensures var h := After(seed, acts, AgentLoop.Limits(Some(n), calls, duration, on)).shared.history;
            i < |h| && h[i].TurnDone? ==>
              h[i].turn <= Max(n, 1) + (if on.FinalAnswer? && h[i].work.withheld then 1 else 0)
  {
    var loop := AgentLoop.Limits(Some(n), calls, duration, on);
    AgentLoop.LimitsAreTurnLimited(n, calls, duration, on);
    AgentLoop.TurnLimitBounds(loop, n);
    if !on.FinalAnswer? { AgentLoop.NeverFinalNeverAsks(loop); }
    var limit := Limit(Max(n, 1), on.FinalAnswer?);
    AlwaysTurns(seed, acts, loop, limit);
  }

  // --------------------------------------------------- a stopped run stays stopped

  /** The fibre is past the last turn of run `run`: closing it, between runs, in a later one, or leaving. */
  predicate Stopped(f: Fiber, run: nat) {
    f.runs > run
    || (f.runs == run && match f.pc
                         case Unborn => false
                         case InSubmission(_) => true
                         case InRun(q) => q.CloseWait? || q.CloseFlag? || q.CloseUnlock?
                         case InSteering(late, _) => late
                         case InRelease(_) => true
                         case Exited => true)
  }

  predicate TurnIn(e: Entry, a: nat, run: nat) {
    TurnOf(e, a) && e.run == run
  }

  /** `g` extends `h` by nothing, or by one entry that is no turn of run `run` of submission `a`. */
  predicate NoTurnAdded(h: seq<Entry>, g: seq<Entry>, a: nat, run: nat) {
    g == h || (|g| == |h| + 1 && g == h + [g[|h|]] && !TurnIn(g[|h|], a, run))
  }

  lemma AdvanceStaysStopped(
    sh: Shared, a: nat, f: Fiber, outcome: Option<ToolBatch.Work>, verdict: AgentLoop.Verdict, run: nat)
    requires Stopped(f, run)
    ensures var r := DoAdvance(sh, a, f, outcome, verdict);
            Stopped(r.fiber, run) && NoTurnAdded(sh.history, r.shared.history, a, run)
  {
    if f.pc != InRun(CommitTurn) { NoTurnElsewhere(sh, a, f, outcome, verdict); }
  }

  lemma OtherAddsNoTurn(
    sh: Shared, b: nat, f: Fiber, outcome: Option<ToolBatch.Work>, verdict: AgentLoop.Verdict, a: nat, run: nat)
    requires a != b
    ensures NoTurnAdded(sh.history, DoAdvance(sh, b, f, outcome, verdict).shared.history, a, run)
  {
    if f.pc != InRun(CommitTurn) { NoTurnElsewhere(sh, b, f, outcome, verdict); }
  }

  ghost predicate StoppedAt(s: State, a: nat, run: nat) {
    a in s.fibers && Stopped(s.fibers[a], run)
  }

  lemma AdvanceKeepsStopped(s: State, b: nat, ch: Choice, loop: AgentLoop.Loop, a: nat, run: nat)
    requires StoppedAt(s, a, run) && b in s.fibers
    ensures var t := Step(s, Advance(b, ch), loop);
            StoppedAt(t, a, run) && NoTurnAdded(s.shared.history, t.shared.history, a, run)
  {
    var outcome := OutcomeOf(s.fibers[b], ch);
    var verdict := AgentLoop.Decide(loop, Asked(s.fibers[b], ch)).verdict;
    if a == b { AdvanceStaysStopped(s.shared, a, s.fibers[a], outcome, verdict, run); }
    else { OtherAddsNoTurn(s.shared, b, s.fibers[b], outcome, verdict, a, run); }
  }

  lemma OtherActsKeepStopped(s: State, act: Act, loop: AgentLoop.Loop, a: nat, run: nat)
    requires Shape(s) && StoppedAt(s, a, run) && !act.Advance?
    ensures var t := Step(s, act, loop); StoppedAt(t, a, run) && t.shared.history == s.shared.history
  {
  }

  ghost predicate NoTurnSince(s: State, t: State, a: nat, run: nat) {
    s.shared.history <= t.shared.history
    && forall i | |s.shared.history| <= i < |t.shared.history| :: !TurnIn(t.shared.history[i], a, run)
  }

  /**
   MAIN: once a run has stopped, no schedule adds a turn to it: steering that arrives late, or during its
   close, is applied to history but answered by a run of its own.
   */
  lemma {:induction false} NoTurnAfterStop(
    seed: seq<nat>, acts: seq<Act>, more: seq<Act>, loop: AgentLoop.Loop, a: nat, run: nat)
    requires StoppedAt(After(seed, acts, loop), a, run)
    ensures StoppedAt(After(seed, acts + more, loop), a, run)
    ensures NoTurnSince(After(seed, acts, loop), After(seed, acts + more, loop), a, run)
    decreases |more|
  {
    if more == [] {
      assert acts + more == acts;
    } else {
      var most, act := more[..|more| - 1], more[|more| - 1];
      NoTurnAfterStop(seed, acts, most, loop, a, run);
      AfterMore(seed, acts, more, loop);
      Always(seed, acts + most, loop);
      StopStep(After(seed, acts, loop), After(seed, acts + most, loop), act, loop, a, run);
    }
  }

  /** The batch as the fibre's run gives it to its tools. */
  function BatchOf(f: Fiber, ch: Choice): ToolBatch.Batch {
    ch.batch.(offer := ch.batch.offer.(withheld := f.run.finalTurn))
  }

  lemma FatalLeaves(s: State, a: nat, ch: Choice, loop: AgentLoop.Loop, i: nat)
    requires a in s.fibers && s.fibers[a].pc == InRun(Think) && ToolBatch.Fatal(BatchOf(s.fibers[a], ch), i)
    ensures var t := Step(s, Advance(a, ch), loop);
            t.shared.history == s.shared.history && t.fibers[a] == AtRelease(s.fibers[a], ReadFiber)
  {
    var b := BatchOf(s.fibers[a], ch);
    ToolBatch.LimitsAreNotNegotiable(b, i, b.policies);
    assert b.(policies := b.policies) == b;
    assert OutcomeOf(s.fibers[a], ch).None?;
  }

  /**
   MAIN: a turn in which a reached handler dies or meets a limit of the engine is never committed. Its step
   leaves history as it was and sends the fibre to its release, and no schedule from there on adds a turn to the run.
   */
  lemma LimitsEndTheRun(
    seed: seq<nat>, acts: seq<Act>, more: seq<Act>, loop: AgentLoop.Loop, a: nat, ch: Choice, i: nat)
    requires var s := After(seed, acts, loop);
             a in s.fibers && s.fibers[a].pc == InRun(Think) && ToolBatch.Fatal(BatchOf(s.fibers[a], ch), i)
    ensures var s, t := After(seed, acts, loop), After(seed, acts + [Advance(a, ch)], loop);
            && t.shared.history == s.shared.history && t.fibers[a] == AtRelease(s.fibers[a], ReadFiber)
            && NoTurnSince(s, After(seed, (acts + [Advance(a, ch)]) + more, loop), a, s.fibers[a].runs)
  {
    AfterMore(seed, acts, [Advance(a, ch)], loop);
    assert acts + [Advance(a, ch)][..0] == acts;
    FatalLeaves(After(seed, acts, loop), a, ch, loop, i);
    NoTurnAfterStop(seed, acts + [Advance(a, ch)], more, loop, a, After(seed, acts, loop).fibers[a].runs);
  }

  lemma StopStep(s: State, t: State, act: Act, loop: AgentLoop.Loop, a: nat, run: nat)
    requires Shape(t) && StoppedAt(t, a, run) && NoTurnSince(s, t, a, run)
    ensures StoppedAt(Step(t, act, loop), a, run) && NoTurnSince(s, Step(t, act, loop), a, run)
  {
    if !act.Advance? { OtherActsKeepStopped(t, act, loop, a, run); }
    else if act.sub in t.fibers { AdvanceKeepsStopped(t, act.sub, act.choice, loop, a, run); }
  }
}
