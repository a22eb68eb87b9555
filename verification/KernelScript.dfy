/**
 What a prompt comes to when nobody interferes, by what the model, the tools and the loop say turn by turn: exactly
 those turns, in that order, and then a completed submission and an idle session.
 */
module KernelScript {
  import opened Base
  import opened Kernel
  import opened KernelAlone
  import opened KernelFiber
  import opened KernelInvariant
  import AgentLoop
  import ToolBatch

  // -------------------------------------------------------------------------- scripts

  /** A turn's choice comes to this work, with its tools withheld or not. */
  predicate ComesTo(ch: Choice, withheld: bool, w: ToolBatch.Work) {
    ToolBatch.TurnOutcome(ch.batch.(offer := ch.batch.offer.(withheld := withheld))) == Some(w)
  }

  /** What the loop answers after the turn that follows `done` turns and `tools` calls. */
  function SaidOf(loop: AgentLoop.Loop, done: nat, tools: nat, ch: Choice, w: ToolBatch.Work): AgentLoop.Verdict {
    AgentLoop.Decide(loop, AgentLoop.Turn(done + 1, tools + |w.calls|, ch.elapsedMillis, |w.calls|, ch.outputReported,
                                          ch.context)).verdict
  }

  /**
   A turn for each choice, and no more: every turn commits its work; after each but the last the loop goes on, or asks
   for its final turn, which is then the last; and after the last, unless it is that one, the loop stops.
   */
  predicate Script(
    loop: AgentLoop.Loop, done: nat, tools: nat, final: bool, chs: seq<Choice>, works: seq<ToolBatch.Work>)
    decreases |chs|
  {
    && |chs| == |works| > 0 && ComesTo(chs[0], final, works[0])
    && if final then |chs| == 1
       else
         var v := SaidOf(loop, done, tools, chs[0], works[0]);
         v.Decided? && if v.decision.Stop? then |chs| == 1
                       else Script(loop, done + 1, tools + |works[0].calls|, v.decision.Final?, chs[1..], works[1..])
  }

  /** The turns of a run that follow its first `done`, as history has them from position `at` on. */
  function TurnEntries(a: nat, run: nat, done: nat, at: nat, works: seq<ToolBatch.Work>): (es: seq<Entry>)
    ensures |es| == |works|
  {
    seq(|works|, k requires 0 <= k < |works| => TurnDone(a, run, done + k + 1, at + k, works[k]))
  }

  lemma TurnEntriesCons(a: nat, run: nat, done: nat, at: nat, works: seq<ToolBatch.Work>)
    requires works != []
    ensures TurnEntries(a, run, done, at, works)
         == [TurnDone(a, run, done + 1, at, works[0])] + TurnEntries(a, run, done + 1, at + 1, works[1..])
  {
  }

  /** Only a script's last turn can be withheld, and it is when the loop asked for it. */
  lemma {:induction false} OnlyTheLastIsWithheld(
    loop: AgentLoop.Loop, done: nat, tools: nat, final: bool, chs: seq<Choice>, works: seq<ToolBatch.Work>, k: nat)
    requires Script(loop, done, tools, final, chs, works) && k < |works|
    ensures works[k].withheld ==> k == |works| - 1
    ensures k == 0 ==> works[k].withheld == final
    decreases |chs|
  {
    if k > 0 {
      var v := SaidOf(loop, done, tools, chs[0], works[0]);
      OnlyTheLastIsWithheld(
        loop, done + 1, tools + |works[0].calls|, v.decision.Final?, chs[1..], works[1..], k - 1);
    }
  }

  /** The calls of some turns, together. */
  function CallsOf(works: seq<ToolBatch.Work>): nat {
    if works == [] then 0 else |works[0].calls| + CallsOf(works[1..])
  }

  /** What the loop answers after turn `k`, when every turn before it has committed its work. */
  function AnswerAt(
    loop: AgentLoop.Loop, done: nat, tools: nat, chs: seq<Choice>, works: seq<ToolBatch.Work>, k: nat)
    : AgentLoop.Verdict
    requires k < |chs| == |works|
  {
    SaidOf(loop, done + k, tools + CallsOf(works[..k]), chs[k], works[k])
  }

  /** The first `n` turns have their tools, and the loop says to go on after all of them but the last. */
  predicate GoesOn(
    loop: AgentLoop.Loop, done: nat, tools: nat, chs: seq<Choice>, works: seq<ToolBatch.Work>, n: nat)
  {
    && 0 < n <= |chs| == |works|
    && (forall k | 0 <= k < n :: ComesTo(chs[k], false, works[k]))
    && forall k | 0 <= k < n - 1 :: AnswerAt(loop, done, tools, chs, works, k) == AgentLoop.Decided(AgentLoop.Continue)
  }

  lemma AnswersShift(
    loop: AgentLoop.Loop, done: nat, tools: nat, chs: seq<Choice>, works: seq<ToolBatch.Work>, k: nat)
    requires 0 < k < |chs| == |works|
    ensures AnswerAt(loop, done, tools, chs, works, k)
         == AnswerAt(loop, done + 1, tools + |works[0].calls|, chs[1..], works[1..], k - 1)
  {
    assert works[..k][0] == works[0] && works[..k][1..] == works[1..][..k - 1];
  }

  lemma FirstAnswer(loop: AgentLoop.Loop, done: nat, tools: nat, chs: seq<Choice>, works: seq<ToolBatch.Work>)
    requires |chs| == |works| > 0
    ensures AnswerAt(loop, done, tools, chs, works, 0) == SaidOf(loop, done, tools, chs[0], works[0])
  {
    assert works[..0] == [];
  }

  lemma GoesOnShifts(
    loop: AgentLoop.Loop, done: nat, tools: nat, chs: seq<Choice>, works: seq<ToolBatch.Work>, n: nat)
    requires GoesOn(loop, done, tools, chs, works, n) && n > 1
    ensures GoesOn(loop, done + 1, tools + |works[0].calls|, chs[1..], works[1..], n - 1)
    ensures AnswerAt(loop, done, tools, chs, works, n - 1)
         == AnswerAt(loop, done + 1, tools + |works[0].calls|, chs[1..], works[1..], n - 2)
  {
    AnswersShift(loop, done, tools, chs, works, n - 1);
    forall k {:trigger chs[1..][k]} | 0 <= k < n - 1 ensures ComesTo(chs[1..][k], false, works[1..][k]) {
      assert ComesTo(chs[k + 1], false, works[k + 1]);
    }
    forall k {:trigger chs[1..][k]} | 0 <= k < n - 2
      ensures AnswerAt(loop, done + 1, tools + |works[0].calls|, chs[1..], works[1..], k)
           == AgentLoop.Decided(AgentLoop.Continue)
    {
      AnswersShift(loop, done, tools, chs, works, k + 1);
    }
  }

  /** One turn more, before a script. */
  lemma ScriptCons(
    loop: AgentLoop.Loop, done: nat, tools: nat, chs: seq<Choice>, works: seq<ToolBatch.Work>, v: AgentLoop.Verdict)
    requires |chs| == |works| > 0 && ComesTo(chs[0], false, works[0])
    requires v == AnswerAt(loop, done, tools, chs, works, 0) && v.Decided?
    requires if v.decision.Stop? then |chs| == 1
             else Script(loop, done + 1, tools + |works[0].calls|, v.decision.Final?, chs[1..], works[1..])
    ensures Script(loop, done, tools, false, chs, works)
  {
    FirstAnswer(loop, done, tools, chs, works);
  }

  /** MAIN: going on after turns 1 to n - 1 and stopping after turn n is a script of exactly those n turns. */
  lemma {:induction false} StoppedScript(
    loop: AgentLoop.Loop, done: nat, tools: nat, chs: seq<Choice>, works: seq<ToolBatch.Work>, n: nat)
    requires GoesOn(loop, done, tools, chs, works, n) && n == |chs|
    requires var v := AnswerAt(loop, done, tools, chs, works, n - 1); v.Decided? && v.decision.Stop?
    ensures Script(loop, done, tools, false, chs, works)
    decreases n
  {
    if n > 1 {
      GoesOnShifts(loop, done, tools, chs, works, n);
      StoppedScript(loop, done + 1, tools + |works[0].calls|, chs[1..], works[1..], n - 1);
    }
    ScriptCons(loop, done, tools, chs, works, AnswerAt(loop, done, tools, chs, works, 0));
  }

  /** The one turn a loop has left when it has asked for its final turn. */
  lemma FinalTurnLeft(loop: AgentLoop.Loop, done: nat, tools: nat, ch: Choice, w: ToolBatch.Work)
    requires ComesTo(ch, true, w)
    ensures Script(loop, done, tools, true, [ch], [w]) && w.withheld
  {
  }

  /** MAIN: and asking after turn n for a final turn makes one of n + 1, the last with its tools withheld. */
  lemma {:induction false} FinalScript(
    loop: AgentLoop.Loop, done: nat, tools: nat, chs: seq<Choice>, works: seq<ToolBatch.Work>, n: nat)
    requires GoesOn(loop, done, tools, chs, works, n) && n + 1 == |chs| && ComesTo(chs[n], true, works[n])
    requires var v := AnswerAt(loop, done, tools, chs, works, n - 1); v.Decided? && v.decision.Final?
    ensures Script(loop, done, tools, false, chs, works) && works[n].withheld
    decreases n
  {
    if n > 1 {
      GoesOnShifts(loop, done, tools, chs, works, n);
      FinalScript(loop, done + 1, tools + |works[0].calls|, chs[1..], works[1..], n - 1);
    } else {
      FinalTurnLeft(loop, done + 1, tools + |works[0].calls|, chs[1], works[1]);
      assert chs[1..] == [chs[1]] && works[1..] == [works[1]];
    }
    ScriptCons(loop, done, tools, chs, works, AnswerAt(loop, done, tools, chs, works, 0));
  }

  // ------------------------------------------------------------------ a run, by script

  /** With nothing queued, a turn boundary changes nothing but where the fibre is. */
  lemma NothingSteered(sh: Shared, a: nat, f: Fiber)
    requires sh.steering == [] && f.input.batch == [] && sh.gate.Free?
    ensures Steered(sh, a, f, false) == Stepped(sh, AtRun(f, StartTurn))
  {
    assert sh.history + Applieds(a, []) == sh.history;
    assert f.(input := f.input.(batch := []), run := f.run.(late := f.run.late)) == f;
  }

  lemma NothingLate(sh: Shared, a: nat, f: Fiber)
    requires sh.steering == [] && f.input.batch == [] && sh.gate.Free?
    ensures RunClosed(sh, a, f)
         == Stepped(sh.(state := sh.state.(acceptingSteering := false)),
                    AtSubmission(f, PullCheck).(run := f.run.(late := 0)))
  {
    var shut := sh.(state := sh.state.(acceptingSteering := false));
    assert shut.history + Applieds(a, []) == shut.history;
  }

  /** What a scripted run has done, when it is over. */
  predicate RanBy(sh: Shared, f: Fiber, r: Stepped, turns: seq<Entry>) {
    && r.shared == sh.(state := sh.state.(acceptingSteering := false), history := sh.history + turns,
                       progress := sh.progress.(turns := sh.progress.turns + |turns|))
    && r.fiber == f.(pc := InSubmission(PullCheck), run := r.fiber.run) && r.fiber.run.late == 0
  }

  predicate AtBoundary(sh: Shared, f: Fiber) {
    sh.steering == [] && sh.gate.Free? && f.pc == InSteering(false, SteerWait) && f.input.batch == []
  }

  /** A run at a turn boundary with nothing to interfere, and what its turns will say. */
  predicate Scripted(loop: AgentLoop.Loop, sh: Shared, f: Fiber, chs: seq<Choice>, works: seq<ToolBatch.Work>) {
    AtBoundary(sh, f) && Script(loop, f.run.turn, f.run.tools, f.run.finalTurn, chs, works)
  }

  /** What one turn has done, with its decision. */
  predicate TurnedBy(sh: Shared, f: Fiber, d: Stepped, e: Entry, w: ToolBatch.Work, pc: PC, final: bool) {
    && d.shared == sh.(history := sh.history + [e], progress := sh.progress.(turns := sh.progress.turns + 1))
    && d.fiber == f.(pc := pc, run := d.fiber.run)
    && d.fiber.run.turn == f.run.turn + 1 && d.fiber.run.tools == f.run.tools + |w.calls|
    && d.fiber.run.finalTurn == final
  }

  lemma LastTurnDecides(loop: AgentLoop.Loop, sh: Shared, a: nat, g: Fiber, ch: Choice, w: ToolBatch.Work)
    requires sh.gate.Free? && ComesTo(ch, g.run.finalTurn, w)
    requires g.run.finalTurn
             || (var v := SaidOf(loop, g.run.turn, g.run.tools, ch, w); v.Decided? && v.decision.Stop?)
    ensures TurnedBy(sh, g, TurnDecided(sh, a, g, ch, loop), TurnDone(a, g.runs, g.run.turn + 1, |sh.history|, w), w,
                     InRun(CloseWait), g.run.finalTurn)
  {
  }

  lemma NextTurnDecides(loop: AgentLoop.Loop, sh: Shared, a: nat, g: Fiber, ch: Choice, w: ToolBatch.Work)
    requires sh.gate.Free? && !g.run.finalTurn && ComesTo(ch, false, w)
    requires var v := SaidOf(loop, g.run.turn, g.run.tools, ch, w); v.Decided? && !v.decision.Stop?
    ensures TurnedBy(sh, g, TurnDecided(sh, a, g, ch, loop), TurnDone(a, g.runs, g.run.turn + 1, |sh.history|, w), w,
                     InSteering(false, SteerWait), SaidOf(loop, g.run.turn, g.run.tools, ch, w).decision.Final?)
  {
  }

  lemma RunTakesTurn(loop: AgentLoop.Loop, sh: Shared, a: nat, f: Fiber, chs: seq<Choice>)
    requires AtBoundary(sh, f) && chs != []
    ensures RunFrom(sh, a, f, chs, loop)
         == AfterDecision(TurnDecided(sh, a, AtRun(f, StartTurn), chs[0], loop), a, chs[1..], loop)
  {
    NothingSteered(sh, a, f);
  }

  lemma ThenCloses(sh: Shared, a: nat, f: Fiber, d: Stepped, e: Entry, w: ToolBatch.Work, final: bool)
    requires AtBoundary(sh, f) && TurnedBy(sh, f, d, e, w, InRun(CloseWait), final)
    ensures RanBy(sh, f, RunClosed(d.shared, a, d.fiber), [e])
  {
    NothingLate(d.shared, a, d.fiber);
  }

  lemma ThenRuns(
    sh: Shared, f: Fiber, d: Stepped, e: Entry, w: ToolBatch.Work, final: bool, r: Stepped, rest: seq<Entry>,
    turns: seq<Entry>)
    requires TurnedBy(sh, f, d, e, w, InSteering(false, SteerWait), final) && RanBy(d.shared, d.fiber, r, rest)
    requires turns == [e] + rest
    ensures RanBy(sh, f, r, turns)
  {
    assert (sh.history + [e]) + rest == sh.history + ([e] + rest);
  }

  /** The first turn of a script, and what the script is after it. */
  lemma ScriptHead(
    loop: AgentLoop.Loop, done: nat, tools: nat, final: bool, chs: seq<Choice>, works: seq<ToolBatch.Work>)
    requires Script(loop, done, tools, final, chs, works)
    ensures chs != [] && works != [] && ComesTo(chs[0], final, works[0])
    ensures |chs| == 1 ==>
              |works| == 1
              && (final || (var v := SaidOf(loop, done, tools, chs[0], works[0]); v.Decided? && v.decision.Stop?))
    ensures |chs| > 1 ==>
              var v := SaidOf(loop, done, tools, chs[0], works[0]);
              && !final && v.Decided? && !v.decision.Stop?
              && Script(loop, done + 1, tools + |works[0].calls|, v.decision.Final?, chs[1..], works[1..])
  {
  }

  lemma LastOf(loop: AgentLoop.Loop, sh: Shared, a: nat, f: Fiber, chs: seq<Choice>, w: ToolBatch.Work, e: Entry)
    requires AtBoundary(sh, f) && |chs| == 1 && ComesTo(chs[0], f.run.finalTurn, w)
    requires f.run.finalTurn
             || (var v := SaidOf(loop, f.run.turn, f.run.tools, chs[0], w); v.Decided? && v.decision.Stop?)
    requires e == TurnDone(a, f.runs, f.run.turn + 1, |sh.history|, w)
    ensures RanBy(sh, f, RunFrom(sh, a, f, chs, loop), [e])
  {
    var g := AtRun(f, StartTurn);
    var d := TurnDecided(sh, a, g, chs[0], loop);
    RunTakesTurn(loop, sh, a, f, chs);
    LastTurnDecides(loop, sh, a, g, chs[0], w);
    Begun(sh, f, d, e, w, InRun(CloseWait), f.run.finalTurn);
    ThenCloses(sh, a, f, d, e, w, f.run.finalTurn);
  }

  /** Where a turn began is no part of what it did. */
  lemma Begun(sh: Shared, f: Fiber, d: Stepped, e: Entry, w: ToolBatch.Work, pc: PC, final: bool)
    requires TurnedBy(sh, AtRun(f, StartTurn), d, e, w, pc, final)
    ensures TurnedBy(sh, f, d, e, w, pc, final)
  {
  }

  lemma LastOfScript(
    loop: AgentLoop.Loop, sh: Shared, a: nat, f: Fiber, chs: seq<Choice>, works: seq<ToolBatch.Work>)
    requires AtBoundary(sh, f) && |chs| == 1 && Script(loop, f.run.turn, f.run.tools, f.run.finalTurn, chs, works)
    ensures RanBy(sh, f, RunFrom(sh, a, f, chs, loop), TurnEntries(a, f.runs, f.run.turn, |sh.history|, works))
  {
    var e := TurnDone(a, f.runs, f.run.turn + 1, |sh.history|, works[0]);
    ScriptHead(loop, f.run.turn, f.run.tools, f.run.finalTurn, chs, works);
    LastOf(loop, sh, a, f, chs, works[0], e);
    assert TurnEntries(a, f.runs, f.run.turn, |sh.history|, works) == [e];
  }

  lemma NextOf(
    loop: AgentLoop.Loop, sh: Shared, a: nat, f: Fiber, chs: seq<Choice>, w: ToolBatch.Work, v: AgentLoop.Verdict)
    returns (d: Stepped, e: Entry)
    requires AtBoundary(sh, f) && chs != [] && !f.run.finalTurn && ComesTo(chs[0], false, w)
    requires v == SaidOf(loop, f.run.turn, f.run.tools, chs[0], w) && v.Decided? && !v.decision.Stop?
    ensures e == TurnDone(a, f.runs, f.run.turn + 1, |sh.history|, w)
    ensures TurnedBy(sh, f, d, e, w, InSteering(false, SteerWait), v.decision.Final?)
    ensures RunFrom(sh, a, f, chs, loop) == RunFrom(d.shared, a, d.fiber, chs[1..], loop)
  {
    d, e := TurnDecided(sh, a, AtRun(f, StartTurn), chs[0], loop),
            TurnDone(a, f.runs, f.run.turn + 1, |sh.history|, w);
    RunTakesTurn(loop, sh, a, f, chs);
    NextTurnDecides(loop, sh, a, AtRun(f, StartTurn), chs[0], w);
    Begun(sh, f, d, e, w, InSteering(false, SteerWait), v.decision.Final?);
    GoesOnFrom(d, a, chs[1..], loop);
  }

  lemma GoesOnFrom(d: Stepped, a: nat, chs: seq<Choice>, loop: AgentLoop.Loop)
    requires d.fiber.pc == InSteering(false, SteerWait)
    ensures AfterDecision(d, a, chs, loop) == RunFrom(d.shared, a, d.fiber, chs, loop)
  {
  }

  /** After its first turn, the rest of a script is one from there. */
  lemma ScriptAfter(
    loop: AgentLoop.Loop, sh: Shared, f: Fiber, d: Stepped, e: Entry, chs: seq<Choice>, works: seq<ToolBatch.Work>,
    final: bool)
    requires |chs| > 1 && Script(loop, f.run.turn, f.run.tools, f.run.finalTurn, chs, works) && AtBoundary(sh, f)
    requires TurnedBy(sh, f, d, e, works[0], InSteering(false, SteerWait), final)
    requires final == (var v := SaidOf(loop, f.run.turn, f.run.tools, chs[0], works[0]);
                       v.Decided? && v.decision.Final?)
    ensures Script(loop, d.fiber.run.turn, d.fiber.run.tools, d.fiber.run.finalTurn, chs[1..], works[1..])
    ensures AtBoundary(d.shared, d.fiber)
  {
    ScriptHead(loop, f.run.turn, f.run.tools, f.run.finalTurn, chs, works);
  }

  lemma NextOfScript(
    loop: AgentLoop.Loop, sh: Shared, a: nat, f: Fiber, chs: seq<Choice>, works: seq<ToolBatch.Work>, r: Stepped)
    returns (d: Stepped, e: Entry, final: bool)
    requires AtBoundary(sh, f) && |chs| > 1 && Script(loop, f.run.turn, f.run.tools, f.run.finalTurn, chs, works)
    requires r == RunFrom(sh, a, f, chs, loop)
    ensures e == TurnDone(a, f.runs, f.run.turn + 1, |sh.history|, works[0])
    ensures TurnedBy(sh, f, d, e, works[0], InSteering(false, SteerWait), final) && AtBoundary(d.shared, d.fiber)
    ensures Script(loop, d.fiber.run.turn, d.fiber.run.tools, d.fiber.run.finalTurn, chs[1..], works[1..])
    ensures r == RunFrom(d.shared, a, d.fiber, chs[1..], loop)
  {
    var v := SaidOf(loop, f.run.turn, f.run.tools, chs[0], works[0]);
    ScriptHead(loop, f.run.turn, f.run.tools, f.run.finalTurn, chs, works);
    final := v.decision.Final?;
    d, e := NextOf(loop, sh, a, f, chs, works[0], v);
    ScriptAfter(loop, sh, f, d, e, chs, works, final);
  }

  lemma {:induction false} ScriptIsRun(
    loop: AgentLoop.Loop, sh: Shared, a: nat, f: Fiber, chs: seq<Choice>, works: seq<ToolBatch.Work>, r: Stepped,
    turns: seq<Entry>)
    requires AtBoundary(sh, f) && Script(loop, f.run.turn, f.run.tools, f.run.finalTurn, chs, works)
    requires r == RunFrom(sh, a, f, chs, loop) && turns == TurnEntries(a, f.runs, f.run.turn, |sh.history|, works)
    ensures RanBy(sh, f, r, turns)
    decreases |chs|
  {
    if |chs| == 1 {
      LastOfScript(loop, sh, a, f, chs, works);
    } else {
      var d, e, final := NextOfScript(loop, sh, a, f, chs, works, r);
      var rest := TurnEntries(a, d.fiber.runs, d.fiber.run.turn, |d.shared.history|, works[1..]);
      ScriptIsRun(loop, d.shared, a, d.fiber, chs[1..], works[1..], r, rest);
      ThenScript(sh, a, f, d, e, final, works, r, rest, turns);
    }
  }

  lemma ThenScript(
    sh: Shared, a: nat, f: Fiber, d: Stepped, e: Entry, final: bool, works: seq<ToolBatch.Work>, r: Stepped,
    rest: seq<Entry>, turns: seq<Entry>)
    requires works != [] && e == TurnDone(a, f.runs, f.run.turn + 1, |sh.history|, works[0])
    requires TurnedBy(sh, f, d, e, works[0], InSteering(false, SteerWait), final) && RanBy(d.shared, d.fiber, r, rest)
    requires rest == TurnEntries(a, d.fiber.runs, d.fiber.run.turn, |d.shared.history|, works[1..])
    requires turns == TurnEntries(a, f.runs, f.run.turn, |sh.history|, works)
    ensures RanBy(sh, f, r, turns)
  {
    TurnEntriesCons(a, f.runs, f.run.turn, |sh.history|, works);
    ThenRuns(sh, f, d, e, works[0], final, r, rest, turns);
  }

  /** A script is run to its end: each turn's work is committed, in order, and then the run closes. */
  lemma ScriptRuns(
    loop: AgentLoop.Loop, sh: Shared, a: nat, f: Fiber, chs: seq<Choice>, works: seq<ToolBatch.Work>)
    requires AtBoundary(sh, f) && Script(loop, f.run.turn, f.run.tools, f.run.finalTurn, chs, works)
    ensures RanBy(sh, f, RunFrom(sh, a, f, chs, loop), TurnEntries(a, f.runs, f.run.turn, |sh.history|, works))
  {
    ScriptIsRun(loop, sh, a, f, chs, works, RunFrom(sh, a, f, chs, loop),
                TurnEntries(a, f.runs, f.run.turn, |sh.history|, works));
  }
}
