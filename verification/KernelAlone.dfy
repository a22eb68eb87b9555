/**
 What a submission's fibre does while nobody else steps: the blocks of `applySteering`, of one turn, of a run
 and of a submission, each as one function of the session -- and that each is a sequence of the machine's steps.
 */
module KernelAlone {
  import opened Base
  import opened Kernel
  import AgentLoop
  import ToolBatch

  // ------------------------------------------------------------- the machine, alone

  function Ticked(at: Stepped, a: nat, ch: Choice, loop: AgentLoop.Loop): Stepped {
    DoAdvance(at.shared, a, at.fiber, OutcomeOf(at.fiber, ch), AgentLoop.Decide(loop, Asked(at.fiber, ch)).verdict)
  }

  function Alone(at: Stepped, a: nat, steps: seq<Choice>, loop: AgentLoop.Loop): Stepped
    decreases |steps|
  {
    if steps == [] then at else Ticked(Alone(at, a, steps[..|steps| - 1], loop), a, steps[|steps| - 1], loop)
  }

  /** `to` is where the machine gets from `from`, by some steps of this fibre only. */
  ghost predicate Leads(from: Stepped, a: nat, to: Stepped, loop: AgentLoop.Loop) {
    exists steps: seq<Choice> :: Alone(from, a, steps, loop) == to
  }

  lemma LeadsNowhere(at: Stepped, a: nat, loop: AgentLoop.Loop)
    ensures Leads(at, a, at, loop)
  {
    assert Alone(at, a, [], loop) == at;
  }

  lemma LeadsOn(from: Stepped, a: nat, at: Stepped, ch: Choice, loop: AgentLoop.Loop)
    requires Leads(from, a, at, loop)
    ensures Leads(from, a, Ticked(at, a, ch, loop), loop)
  {
    var steps: seq<Choice> :| Alone(from, a, steps, loop) == at;
    assert (steps + [ch])[..|steps|] == steps;
    assert Alone(from, a, steps + [ch], loop) == Ticked(at, a, ch, loop);
  }

  lemma OnSteering(from: Stepped, a: nat, at: Stepped, late: bool, q: SteerPC, loop: AgentLoop.Loop)
    requires Leads(from, a, at, loop) && at.fiber.pc == InSteering(late, q)
    ensures Leads(from, a, AdvanceSteering(at.shared, a, at.fiber, late, q), loop)
  {
    LeadsOn(from, a, at, NO_CALLS, loop);
  }

  lemma OnRun(from: Stepped, a: nat, at: Stepped, q: RunPC, ch: Choice, loop: AgentLoop.Loop)
    requires Leads(from, a, at, loop) && at.fiber.pc == InRun(q)
    ensures Leads(from, a, AdvanceRun(at.shared, a, at.fiber, q, OutcomeOf(at.fiber, ch),
                                      AgentLoop.Decide(loop, Asked(at.fiber, ch)).verdict), loop)
  {
    LeadsOn(from, a, at, ch, loop);
  }

  /** A step of a run that asks neither the model nor the loop. */
  lemma OnQuietRun(from: Stepped, a: nat, at: Stepped, q: RunPC, loop: AgentLoop.Loop)
    requires Leads(from, a, at, loop) && at.fiber.pc == InRun(q) && q != Think && q != Decide
    ensures Leads(from, a, AdvanceRun(at.shared, a, at.fiber, q, None, AgentLoop.Decided(AgentLoop.Continue)), loop)
  {
    OnRun(from, a, at, q, NO_CALLS, loop);
  }

  // ------------------------------------------------------------------ applySteering

  function Applieds(a: nat, items: seq<Item>): seq<Entry> {
    seq(|items|, i requires 0 <= i < |items| => Applied(a, Steering, items[i]))
  }

  /** `applySteering`, whole: every queued input is in history, in order. */
  function Steered(sh: Shared, a: nat, f: Fiber, late: bool): Stepped {
    var g := f.(input := f.input.(batch := []), run := f.run.(late := if late then |sh.steering| else f.run.late));
    DoSteerUnlock(sh.(steering := [], history := sh.history + Applieds(a, sh.steering)), g, late)
  }

  /** A batch half committed. */
  function Committing(sh: Shared, a: nat, f: Fiber, late: bool, items: seq<Item>): Stepped {
    Stepped(sh.(history := sh.history + Applieds(a, items)),
            AtSteering(f, late, SteerCommit).(input := f.input.(batch := [])))
  }

  lemma AppliedsCons(h: seq<Entry>, a: nat, items: seq<Item>)
    requires items != []
    ensures (h + [Applied(a, Steering, items[0])]) + Applieds(a, items[1..]) == h + Applieds(a, items)
  {
  }

  lemma CommittingMore(sh: Shared, a: nat, f: Fiber, late: bool)
    requires f.pc == InSteering(late, SteerCommit)
    ensures f.input.batch == [] ==> Committing(sh, a, f, late, []) == Stepped(sh, f)
    ensures f.input.batch != [] ==>
              var r := DoSteerCommit(sh, a, f, late);
              Committing(r.shared, a, r.fiber, late, f.input.batch[1..]) == Committing(sh, a, f, late, f.input.batch)
  {
    if f.input.batch == [] { assert sh.history + Applieds(a, []) == sh.history; }
    else { AppliedsCons(sh.history, a, f.input.batch); }
  }

  lemma OnSteerCommit(from: Stepped, a: nat, at: Stepped, late: bool, loop: AgentLoop.Loop)
    requires Leads(from, a, at, loop) && at.fiber.pc == InSteering(late, SteerCommit)
    ensures Leads(from, a, DoSteerCommit(at.shared, a, at.fiber, late), loop)
  {
    OnSteering(from, a, at, late, SteerCommit, loop);
  }

  lemma {:induction false} CommitAlone(from: Stepped, a: nat, at: Stepped, late: bool, loop: AgentLoop.Loop)
    requires Leads(from, a, at, loop) && at.fiber.pc == InSteering(late, SteerCommit)
    ensures Leads(from, a, Committing(at.shared, a, at.fiber, late, at.fiber.input.batch), loop)
    decreases |at.fiber.input.batch|
  {
    CommittingMore(at.shared, a, at.fiber, late);
    if at.fiber.input.batch != [] {
      OnSteerCommit(from, a, at, late, loop);
      CommitAlone(from, a, DoSteerCommit(at.shared, a, at.fiber, late), late, loop);
    }
  }

  /** From the gate to the drained batch. */
  lemma DrainAlone(from: Stepped, a: nat, at: Stepped, late: bool, loop: AgentLoop.Loop)
    requires Leads(from, a, at, loop) && at.fiber.pc == InSteering(late, SteerWait) && at.shared.gate.Free?
    ensures Leads(from, a, DoSteerDrain(at.shared.(gate := BySub(a)), at.fiber, late), loop)
  {
    OnSteering(from, a, at, late, SteerWait, loop);
    var locked := Stepped(at.shared.(gate := BySub(a)), AtSteering(at.fiber, late, SteerDrain));
    OnSteering(from, a, locked, late, SteerDrain, loop);
  }

  /** From the last commit to the gate's return. */
  lemma OpenAlone(from: Stepped, a: nat, at: Stepped, late: bool, loop: AgentLoop.Loop)
    requires Leads(from, a, at, loop) && at.fiber.pc == InSteering(late, SteerCommit) && at.fiber.input.batch == []
    ensures Leads(from, a, DoSteerUnlock(at.shared, at.fiber, late), loop)
  {
    OnSteering(from, a, at, late, SteerCommit, loop);
    OnSteering(from, a, Stepped(at.shared, AtSteering(at.fiber, late, SteerUnlock)), late, SteerUnlock, loop);
  }

  lemma SteerAlone(from: Stepped, a: nat, at: Stepped, late: bool, loop: AgentLoop.Loop)
    requires Leads(from, a, at, loop) && at.fiber.pc == InSteering(late, SteerWait) && at.shared.gate.Free?
    ensures Leads(from, a, Steered(at.shared, a, at.fiber, late), loop)
  {
    DrainAlone(from, a, at, late, loop);
    var drained := DoSteerDrain(at.shared.(gate := BySub(a)), at.fiber, late);
    CommitAlone(from, a, drained, late, loop);
    OpenAlone(from, a, Committing(drained.shared, a, drained.fiber, late, at.shared.steering), late, loop);
  }

  // ---------------------------------------------------------------------- one turn

  /** A fibre about to commit its turn. */
  function Thinking(sh: Shared, f: Fiber): Fiber {
    f.(run := f.run.(turn := f.run.turn + 1, context := |sh.history|))
  }

  /** `AgentTurn.execute` and what `AgentRun` records of it: one unit of history, or none and the fibre fails. */
  function Turned(sh: Shared, a: nat, f: Fiber, work: Option<ToolBatch.Work>): Stepped {
    var g := Thinking(sh, f);
    if work.None? then Leave(sh, a, g)
    else Stepped(sh.(history := sh.history + [TurnDone(a, f.runs, f.run.turn + 1, |sh.history|, work.value)],
                     progress := sh.progress.(turns := sh.progress.turns + 1)),
                 AtRun(g, Decide).(run := g.run.(work := work, tools := g.run.tools + |work.value.calls|)))
  }

  lemma ThinkAlone(from: Stepped, a: nat, at: Stepped, loop: AgentLoop.Loop)
    requires Leads(from, a, at, loop) && at.fiber.pc == InRun(StartTurn)
    ensures Leads(from, a, Stepped(at.shared, AtRun(Thinking(at.shared, at.fiber), Think)), loop)
  {
    OnQuietRun(from, a, at, StartTurn, loop);
    var numbered := AtRun(at.fiber, Derive).(run := at.fiber.run.(turn := at.fiber.run.turn + 1));
    OnQuietRun(from, a, Stepped(at.shared, numbered), Derive, loop);
  }

  /** A turn's work, committed and recorded. */
  function Recorded(at: Stepped, a: nat): Stepped {
    DoRecord(DoCommitTurn(at.shared, a, at.fiber).shared, AtRun(at.fiber, Record))
  }

  lemma CommitTurnAlone(from: Stepped, a: nat, at: Stepped, loop: AgentLoop.Loop)
    requires Leads(from, a, at, loop) && at.fiber.pc == InRun(CommitTurn) && at.fiber.run.work.Some?
    ensures Leads(from, a, Recorded(at, a), loop)
  {
    OnQuietRun(from, a, at, CommitTurn, loop);
    RecordAlone(from, a, DoCommitTurn(at.shared, a, at.fiber), loop);
  }

  lemma RecordAlone(from: Stepped, a: nat, at: Stepped, loop: AgentLoop.Loop)
    requires Leads(from, a, at, loop) && at.fiber.pc == InRun(Record)
    ensures Leads(from, a, DoRecord(at.shared, at.fiber), loop)
  {
    OnQuietRun(from, a, at, Record, loop);
  }

  lemma ThoughtIsTurned(sh: Shared, a: nat, f: Fiber, work: Option<ToolBatch.Work>)
    ensures var at := DoThink(sh, a, AtRun(Thinking(sh, f), Think), work);
            Turned(sh, a, f, work) == if work.None? then at else Recorded(at, a)
  {
  }

  lemma ThoughtAlone(from: Stepped, a: nat, sh: Shared, f: Fiber, work: Option<ToolBatch.Work>, loop: AgentLoop.Loop)
    requires Leads(from, a, DoThink(sh, a, AtRun(Thinking(sh, f), Think), work), loop)
    ensures Leads(from, a, Turned(sh, a, f, work), loop)
  {
    ThoughtIsTurned(sh, a, f, work);
    if work.Some? { CommitTurnAlone(from, a, DoThink(sh, a, AtRun(Thinking(sh, f), Think), work), loop); }
  }

  lemma TurnAlone(from: Stepped, a: nat, at: Stepped, ch: Choice, loop: AgentLoop.Loop)
    requires Leads(from, a, at, loop) && at.fiber.pc == InRun(StartTurn)
    ensures Leads(from, a, Turned(at.shared, a, at.fiber, OutcomeOf(at.fiber, ch)), loop)
  {
    ThinkAlone(from, a, at, loop);
    var g := AtRun(Thinking(at.shared, at.fiber), Think);
    SameOutcome(at.fiber, g, ch);
    OnThink(from, a, Stepped(at.shared, g), ch, OutcomeOf(at.fiber, ch), loop);
    ThoughtAlone(from, a, at.shared, at.fiber, OutcomeOf(at.fiber, ch), loop);
  }

  lemma OnThink(from: Stepped, a: nat, at: Stepped, ch: Choice, work: Option<ToolBatch.Work>, loop: AgentLoop.Loop)
    requires Leads(from, a, at, loop) && at.fiber.pc == InRun(Think) && work == OutcomeOf(at.fiber, ch)
    ensures Leads(from, a, DoThink(at.shared, a, at.fiber, work), loop)
  {
    OnRun(from, a, at, Think, ch, loop);
  }

  /** What the tools come to depends on the fibre only by whether they are withheld. */
  lemma SameOutcome(f: Fiber, g: Fiber, ch: Choice)
    requires f.run.finalTurn == g.run.finalTurn
    ensures OutcomeOf(f, ch) == OutcomeOf(g, ch)
  {
  }

  // ------------------------------------------------------------------------- a run

  /** A stopped run's gated close, and its late drain. */
  function RunClosed(sh: Shared, a: nat, f: Fiber): Stepped {
    var shut := sh.(state := sh.state.(acceptingSteering := false));
    Steered(shut, a, AtSteering(f, true, SteerWait), true)
  }

  lemma ShutFlagAlone(from: Stepped, a: nat, at: Stepped, loop: AgentLoop.Loop)
    requires Leads(from, a, at, loop) && at.fiber.pc == InRun(CloseWait) && at.shared.gate.Free?
    ensures Leads(from, a, Stepped(at.shared.(gate := BySub(a)), AtRun(at.fiber, CloseFlag)), loop)
  {
    OnQuietRun(from, a, at, CloseWait, loop);
  }

  lemma FlagAlone(from: Stepped, a: nat, at: Stepped, loop: AgentLoop.Loop)
    requires Leads(from, a, at, loop) && at.fiber.pc == InRun(CloseFlag)
    ensures Leads(from, a, Stepped(at.shared.(state := at.shared.state.(acceptingSteering := false), gate := Free),
                                   AtSteering(at.fiber, true, SteerWait)), loop)
  {
    OnQuietRun(from, a, at, CloseFlag, loop);
    var shut := at.shared.(state := at.shared.state.(acceptingSteering := false));
    UnlockAlone(from, a, Stepped(shut, AtRun(at.fiber, CloseUnlock)), loop);
  }

  lemma UnlockAlone(from: Stepped, a: nat, at: Stepped, loop: AgentLoop.Loop)
    requires Leads(from, a, at, loop) && at.fiber.pc == InRun(CloseUnlock)
    ensures Leads(from, a, Stepped(at.shared.(gate := Free), AtSteering(at.fiber, true, SteerWait)), loop)
  {
    OnQuietRun(from, a, at, CloseUnlock, loop);
  }

  lemma CloseAlone(from: Stepped, a: nat, at: Stepped, loop: AgentLoop.Loop)
    requires Leads(from, a, at, loop) && at.fiber.pc == InRun(CloseWait) && at.shared.gate.Free?
    ensures Leads(from, a, RunClosed(at.shared, a, at.fiber), loop)
  {
    var shut := at.shared.(state := at.shared.state.(acceptingSteering := false));
    ShutFlagAlone(from, a, at, loop);
    FlagAlone(from, a, Stepped(at.shared.(gate := BySub(a)), AtRun(at.fiber, CloseFlag)), loop);
    assert at.shared.(gate := BySub(a)).(state := shut.state, gate := Free) == shut;
    SteerAlone(from, a, Stepped(shut, AtSteering(at.fiber, true, SteerWait)), true, loop);
  }

  /** A turn and the decision after it. */
  function TurnDecided(sh: Shared, a: nat, f: Fiber, ch: Choice, loop: AgentLoop.Loop): Stepped {
    var turned := Turned(sh, a, f, OutcomeOf(f, ch));
    if turned.fiber.pc != InRun(Decide) then turned
    else DoDecide(turned.shared, a, turned.fiber, AgentLoop.Decide(loop, Asked(turned.fiber, ch)).verdict)
  }

  lemma TurnDecidedAlone(from: Stepped, a: nat, at: Stepped, ch: Choice, loop: AgentLoop.Loop)
    requires Leads(from, a, at, loop) && at.fiber.pc == InRun(StartTurn)
    ensures Leads(from, a, TurnDecided(at.shared, a, at.fiber, ch, loop), loop)
  {
    TurnAlone(from, a, at, ch, loop);
    var turned := Turned(at.shared, a, at.fiber, OutcomeOf(at.fiber, ch));
    if turned.fiber.pc == InRun(Decide) {
      OnDecide(from, a, turned, ch, AgentLoop.Decide(loop, Asked(turned.fiber, ch)).verdict, loop);
    }
  }

  lemma OnDecide(from: Stepped, a: nat, at: Stepped, ch: Choice, verdict: AgentLoop.Verdict, loop: AgentLoop.Loop)
    requires Leads(from, a, at, loop) && at.fiber.pc == InRun(Decide)
    requires verdict == AgentLoop.Decide(loop, Asked(at.fiber, ch)).verdict
    ensures Leads(from, a, DoDecide(at.shared, a, at.fiber, verdict), loop)
  {
    OnRun(from, a, at, Decide, ch, loop);
  }

  /** Where a turn and its decision leave the gate, and the fibre. */
  predicate DecidedEnds(r: Stepped) {
    r.shared.gate.Free? && (r.fiber.pc == InRun(CloseWait) || r.fiber.pc == InRelease(ReadFiber)
                            || r.fiber.pc == InSteering(false, SteerWait))
  }

  lemma TurnDecidedEnds(sh: Shared, a: nat, f: Fiber, ch: Choice, loop: AgentLoop.Loop)
    requires sh.gate.Free?
    ensures DecidedEnds(TurnDecided(sh, a, f, ch, loop))
  {
    TurnDecidedWith(sh, a, f, OutcomeOf(f, ch), ch, loop);
  }

  lemma TurnDecidedWith(sh: Shared, a: nat, f: Fiber, work: Option<ToolBatch.Work>, ch: Choice, loop: AgentLoop.Loop)
    requires sh.gate.Free?
    ensures var t := Turned(sh, a, f, work);
            && t.shared.gate.Free?
            && (t.fiber.pc == InRun(Decide) || t.fiber.pc == InRelease(ReadFiber))
            && forall v: AgentLoop.Verdict :: DecidedEnds(DoDecide(t.shared, a, t.fiber, v))
  {
  }

  /** A run from one of its turn boundaries, for as many turns as there are choices, or until it ends. */
  function RunFrom(sh: Shared, a: nat, f: Fiber, chs: seq<Choice>, loop: AgentLoop.Loop): Stepped
    decreases |chs|, 0
  {
    if chs == [] then Stepped(sh, f)
    else
      var steered := Steered(sh, a, f, false);
      var decided := TurnDecided(steered.shared, a, steered.fiber, chs[0], loop);
      AfterDecision(decided, a, chs[1..], loop)
  }

  /** MAIN: a whole run is a sequence of the machine's steps. */
  lemma {:induction false} RunAlone(from: Stepped, a: nat, at: Stepped, chs: seq<Choice>, loop: AgentLoop.Loop)
    requires Leads(from, a, at, loop) && at.fiber.pc == InSteering(false, SteerWait) && at.shared.gate.Free?
    ensures Leads(from, a, RunFrom(at.shared, a, at.fiber, chs, loop), loop)
    decreases |chs|, 0
  {
    if chs != [] {
      SteerAlone(from, a, at, false, loop);
      var steered := Steered(at.shared, a, at.fiber, false);
      TurnDecidedAlone(from, a, steered, chs[0], loop);
      TurnDecidedEnds(steered.shared, a, steered.fiber, chs[0], loop);
      RunOn(from, a, TurnDecided(steered.shared, a, steered.fiber, chs[0], loop), chs[1..], loop);
    }
  }

  /** What a run does after a decision. */
  function AfterDecision(at: Stepped, a: nat, chs: seq<Choice>, loop: AgentLoop.Loop): Stepped
    decreases |chs|, 1
  {
    if at.fiber.pc == InRun(CloseWait) then RunClosed(at.shared, a, at.fiber)
    else if at.fiber.pc.InRelease? then at
    else RunFrom(at.shared, a, at.fiber, chs, loop)
  }

  lemma {:induction false} RunOn(from: Stepped, a: nat, at: Stepped, chs: seq<Choice>, loop: AgentLoop.Loop)
    requires Leads(from, a, at, loop) && DecidedEnds(at)
    ensures Leads(from, a, AfterDecision(at, a, chs, loop), loop)
    decreases |chs|, 1
  {
    if at.fiber.pc == InRun(CloseWait) { CloseAlone(from, a, at, loop); }
    else if !at.fiber.pc.InRelease? { RunAlone(from, a, at, chs, loop); }
  }

  // ------------------------------------------------------------------- a submission

  lemma OnSubmission(from: Stepped, a: nat, at: Stepped, to: Stepped, loop: AgentLoop.Loop)
    requires Leads(from, a, at, loop) && at.fiber.pc.InSubmission?
    requires AdvanceSubmission(at.shared, a, at.fiber, at.fiber.pc.submission) == to
    ensures Leads(from, a, to, loop)
  {
    LeadsOn(from, a, at, NO_CALLS, loop);
  }

  /** The follow-ups buffered after a run. */
  function Pulled(sh: Shared, f: Fiber): Stepped {
    if f.input.pending == [] then DoPull(sh, f, CloseCheck) else Stepped(sh, AtSubmission(f, CloseCheck))
  }

  /** The close of input, its last drain, and the re-open if that found any. */
  function Shut(sh: Shared, f: Fiber): Stepped {
    if f.input.pending == [] && f.run.late == 0 && sh.state.acceptingFollowUps then
      var drained := DoPull(Admitting(sh, false), f, Reopen);
      DoReopen(drained.shared, drained.fiber)
    else Stepped(sh, AtSubmission(f, Shift))
  }

  /** The next input, which opens follow-ups again. */
  function Shifted(sh: Shared, f: Fiber): Stepped {
    var shifted := DoShift(sh, f);
    if shifted.fiber.input.next.None? then shifted
    else Stepped(Admitting(sh, true), AtSubmission(shifted.fiber, Head))
  }

  lemma OnPullWait(from: Stepped, a: nat, at: Stepped, loop: AgentLoop.Loop)
    requires Leads(from, a, at, loop) && at.fiber.pc == InSubmission(PullWait) && at.shared.gate.Free?
    ensures Leads(from, a, Stepped(at.shared.(gate := BySub(a)), AtSubmission(at.fiber, PullDrain)), loop)
  {
    OnSubmission(from, a, at, Stepped(at.shared.(gate := BySub(a)), AtSubmission(at.fiber, PullDrain)), loop);
  }

  lemma OnPullDrain(from: Stepped, a: nat, at: Stepped, loop: AgentLoop.Loop)
    requires Leads(from, a, at, loop) && at.fiber.pc == InSubmission(PullDrain)
    ensures Leads(from, a, DoPull(at.shared, at.fiber, PullUnlock), loop)
  {
    OnSubmission(from, a, at, DoPull(at.shared, at.fiber, PullUnlock), loop);
  }

  /** A gated drain, from its wait to the gate's return. */
  lemma PullWaitAlone(from: Stepped, a: nat, at: Stepped, loop: AgentLoop.Loop)
    requires Leads(from, a, at, loop) && at.fiber.pc == InSubmission(PullWait) && at.shared.gate.Free?
    ensures Leads(from, a, DoPull(at.shared, at.fiber, CloseCheck), loop)
  {
    var locked := Stepped(at.shared.(gate := BySub(a)), AtSubmission(at.fiber, PullDrain));
    OnPullWait(from, a, at, loop);
    OnPullDrain(from, a, locked, loop);
    PullUnlocks(from, a, DoPull(locked.shared, locked.fiber, PullUnlock), loop);
  }

  lemma PullUnlocks(from: Stepped, a: nat, at: Stepped, loop: AgentLoop.Loop)
    requires Leads(from, a, at, loop) && at.fiber.pc == InSubmission(PullUnlock)
    ensures Leads(from, a, Stepped(at.shared.(gate := Free), AtSubmission(at.fiber, CloseCheck)), loop)
  {
    OnSubmission(from, a, at, Stepped(at.shared.(gate := Free), AtSubmission(at.fiber, CloseCheck)), loop);
  }

  lemma OnLastWait(from: Stepped, a: nat, at: Stepped, loop: AgentLoop.Loop)
    requires Leads(from, a, at, loop) && at.fiber.pc == InSubmission(LastWait) && at.shared.gate.Free?
    ensures Leads(from, a, Stepped(at.shared.(gate := BySub(a)), AtSubmission(at.fiber, LastDrain)), loop)
  {
    OnSubmission(from, a, at, Stepped(at.shared.(gate := BySub(a)), AtSubmission(at.fiber, LastDrain)), loop);
  }

  lemma OnLastDrain(from: Stepped, a: nat, at: Stepped, loop: AgentLoop.Loop)
    requires Leads(from, a, at, loop) && at.fiber.pc == InSubmission(LastDrain)
    ensures Leads(from, a, DoPull(at.shared, at.fiber, LastUnlock), loop)
  {
    OnSubmission(from, a, at, DoPull(at.shared, at.fiber, LastUnlock), loop);
  }

  lemma LastWaitAlone(from: Stepped, a: nat, at: Stepped, loop: AgentLoop.Loop)
    requires Leads(from, a, at, loop) && at.fiber.pc == InSubmission(LastWait) && at.shared.gate.Free?
    ensures Leads(from, a, DoPull(at.shared, at.fiber, Reopen), loop)
  {
    var locked := Stepped(at.shared.(gate := BySub(a)), AtSubmission(at.fiber, LastDrain));
    OnLastWait(from, a, at, loop);
    OnLastDrain(from, a, locked, loop);
    LastUnlocks(from, a, DoPull(locked.shared, locked.fiber, LastUnlock), loop);
  }

  lemma LastUnlocks(from: Stepped, a: nat, at: Stepped, loop: AgentLoop.Loop)
    requires Leads(from, a, at, loop) && at.fiber.pc == InSubmission(LastUnlock)
    ensures Leads(from, a, Stepped(at.shared.(gate := Free), AtSubmission(at.fiber, Reopen)), loop)
  {
    OnSubmission(from, a, at, Stepped(at.shared.(gate := Free), AtSubmission(at.fiber, Reopen)), loop);
  }

  lemma PullAlone(from: Stepped, a: nat, at: Stepped, loop: AgentLoop.Loop)
    requires Leads(from, a, at, loop) && at.fiber.pc == InSubmission(PullCheck) && at.shared.gate.Free?
    ensures Leads(from, a, Pulled(at.shared, at.fiber), loop)
  {
    if at.fiber.input.pending == [] {
      OnSubmission(from, a, at, Stepped(at.shared, AtSubmission(at.fiber, PullWait)), loop);
      PullWaitAlone(from, a, Stepped(at.shared, AtSubmission(at.fiber, PullWait)), loop);
    } else {
      OnSubmission(from, a, at, Stepped(at.shared, AtSubmission(at.fiber, CloseCheck)), loop);
    }
  }

  lemma OnCloseCheck(from: Stepped, a: nat, at: Stepped, loop: AgentLoop.Loop)
    requires Leads(from, a, at, loop) && at.fiber.pc == InSubmission(CloseCheck)
    ensures Leads(from, a, DoCloseCheck(at.shared, at.fiber), loop)
  {
    OnSubmission(from, a, at, DoCloseCheck(at.shared, at.fiber), loop);
  }

  lemma ReopenSteps(sh: Shared, a: nat, f: Fiber)
    ensures AdvanceSubmission(sh, a, f, Reopen) == DoReopen(sh, f)
    ensures AdvanceSubmission(sh, a, f, Shift) == DoShift(sh, f)
    ensures AdvanceSubmission(sh, a, f, ShiftOpen) == Stepped(Admitting(sh, true), AtSubmission(f, Head))
  {
  }

  lemma OnReopen(from: Stepped, a: nat, at: Stepped, loop: AgentLoop.Loop)
    requires Leads(from, a, at, loop) && at.fiber.pc == InSubmission(Reopen)
    ensures Leads(from, a, DoReopen(at.shared, at.fiber), loop)
  {
    ReopenSteps(at.shared, a, at.fiber);
    OnSubmission(from, a, at, DoReopen(at.shared, at.fiber), loop);
  }

  lemma OnShift(from: Stepped, a: nat, at: Stepped, loop: AgentLoop.Loop)
    requires Leads(from, a, at, loop) && at.fiber.pc == InSubmission(Shift)
    ensures Leads(from, a, DoShift(at.shared, at.fiber), loop)
  {
    ReopenSteps(at.shared, a, at.fiber);
    OnSubmission(from, a, at, DoShift(at.shared, at.fiber), loop);
  }

  lemma OnShiftOpen(from: Stepped, a: nat, at: Stepped, loop: AgentLoop.Loop)
    requires Leads(from, a, at, loop) && at.fiber.pc == InSubmission(ShiftOpen)
    ensures Leads(from, a, Stepped(Admitting(at.shared, true), AtSubmission(at.fiber, Head)), loop)
  {
    ReopenSteps(at.shared, a, at.fiber);
    OnSubmission(from, a, at, Stepped(Admitting(at.shared, true), AtSubmission(at.fiber, Head)), loop);
  }

  lemma ShutAlone(from: Stepped, a: nat, at: Stepped, loop: AgentLoop.Loop)
    requires Leads(from, a, at, loop) && at.fiber.pc == InSubmission(CloseCheck) && at.shared.gate.Free?
    ensures Leads(from, a, Shut(at.shared, at.fiber), loop)
  {
    OnCloseCheck(from, a, at, loop);
    if at.fiber.input.pending == [] && at.fiber.run.late == 0 && at.shared.state.acceptingFollowUps {
      var closed := Stepped(Admitting(at.shared, false), AtSubmission(at.fiber, LastWait));
      LastWaitAlone(from, a, closed, loop);
      OnReopen(from, a, DoPull(closed.shared, closed.fiber, Reopen), loop);
    }
  }

  lemma ShiftAlone(from: Stepped, a: nat, at: Stepped, loop: AgentLoop.Loop)
    requires Leads(from, a, at, loop) && at.fiber.pc == InSubmission(Shift)
    ensures Leads(from, a, Shifted(at.shared, at.fiber), loop)
  {
    OnShift(from, a, at, loop);
    var shifted := DoShift(at.shared, at.fiber);
    if shifted.fiber.input.next.Some? { OnShiftOpen(from, a, shifted, loop); }
  }

  /** Between a run and the next: from its end to the head of the loop. */
  function AfterRun(sh: Shared, f: Fiber): Stepped {
    var pulled := Pulled(sh, f);
    var shut := Shut(pulled.shared, pulled.fiber);
    Shifted(shut.shared, shut.fiber)
  }

  lemma AfterRunAlone(from: Stepped, a: nat, at: Stepped, loop: AgentLoop.Loop)
    requires Leads(from, a, at, loop) && at.fiber.pc == InSubmission(PullCheck) && at.shared.gate.Free?
    ensures Leads(from, a, AfterRun(at.shared, at.fiber), loop)
    ensures AfterRun(at.shared, at.fiber).shared.gate.Free?
        && AfterRun(at.shared, at.fiber).fiber.pc == InSubmission(Head)
  {
    PullAlone(from, a, at, loop);
    var pulled := Pulled(at.shared, at.fiber);
    ShutAlone(from, a, pulled, loop);
    ShiftAlone(from, a, Shut(pulled.shared, pulled.fiber), loop);
  }

  /** A run's start: its input committed, if it has one, and itself counted. */
  function RunStarted(sh: Shared, a: nat, f: Fiber): Stepped {
    var committed := if f.input.next.Some? then DoCommit(sh, a, f) else Stepped(sh, AtSubmission(f, CountRun));
    var counted := DoCountRun(committed.shared, committed.fiber);
    DoStartRun(counted.shared, counted.fiber)
  }

  lemma InputAlone(from: Stepped, a: nat, at: Stepped, loop: AgentLoop.Loop)
    requires Leads(from, a, at, loop) && at.fiber.pc == InSubmission(Head) && at.fiber.input.next.Some?
    ensures Leads(from, a, DoCommit(at.shared, a, at.fiber), loop)
  {
    var ready := Stepped(at.shared, AtSubmission(at.fiber, Commit));
    OnSubmission(from, a, at, ready, loop);
    OnSubmission(from, a, ready, DoCommit(at.shared, a, at.fiber), loop);
  }

  lemma CountAlone(from: Stepped, a: nat, at: Stepped, loop: AgentLoop.Loop)
    requires Leads(from, a, at, loop) && at.fiber.pc == InSubmission(CountRun)
    ensures var counted := DoCountRun(at.shared, at.fiber);
            Leads(from, a, DoStartRun(counted.shared, counted.fiber), loop)
  {
    var counted := DoCountRun(at.shared, at.fiber);
    OnSubmission(from, a, at, counted, loop);
    OnQuietRun(from, a, counted, StartRun, loop);
  }

  lemma StartAlone(from: Stepped, a: nat, at: Stepped, loop: AgentLoop.Loop)
    requires Leads(from, a, at, loop) && at.fiber.pc == InSubmission(Head)
    requires at.fiber.input.next.Some? || at.fiber.run.late > 0
    ensures Leads(from, a, RunStarted(at.shared, a, at.fiber), loop)
  {
    if at.fiber.input.next.Some? {
      InputAlone(from, a, at, loop);
      CountAlone(from, a, DoCommit(at.shared, a, at.fiber), loop);
    } else {
      var ready := Stepped(at.shared, AtSubmission(at.fiber, CountRun));
      OnSubmission(from, a, at, ready, loop);
      CountAlone(from, a, ready, loop);
    }
  }

  /** One iteration of the submission's loop: a run, and, if it stopped of itself, what is pulled after it. */
  function OneRun(sh: Shared, a: nat, f: Fiber, chs: seq<Choice>, loop: AgentLoop.Loop): Stepped {
    var started := RunStarted(sh, a, f);
    var ran := RunFrom(started.shared, a, started.fiber, chs, loop);
    if ran.fiber.pc == InSubmission(PullCheck) then AfterRun(ran.shared, ran.fiber) else ran
  }

  /** A submission from the head of its loop, for as many runs as there are lists of choices, or until it ends. */
  function SubmissionFrom(sh: Shared, a: nat, f: Fiber, runs: seq<seq<Choice>>, loop: AgentLoop.Loop): Stepped
    decreases |runs|
  {
    if f.input.next.None? && f.run.late == 0 then DoHead(sh, f)
    else if runs == [] then Stepped(sh, f)
    else
      var once := OneRun(sh, a, f, runs[0], loop);
      if once.fiber.pc == InSubmission(Head) then SubmissionFrom(once.shared, a, once.fiber, runs[1..], loop) else once
  }

  lemma {:induction false} RunKeepsGateFree(sh: Shared, a: nat, f: Fiber, chs: seq<Choice>, loop: AgentLoop.Loop)
    requires sh.gate.Free?
    ensures RunFrom(sh, a, f, chs, loop).shared.gate.Free?
    decreases |chs|
  {
    if chs != [] {
      var steered := Steered(sh, a, f, false);
      var decided := TurnDecided(steered.shared, a, steered.fiber, chs[0], loop);
      TurnDecidedEnds(steered.shared, a, steered.fiber, chs[0], loop);
      RunKeepsGateFree(decided.shared, a, decided.fiber, chs[1..], loop);
    }
  }

  lemma OneRunAlone(from: Stepped, a: nat, at: Stepped, chs: seq<Choice>, loop: AgentLoop.Loop)
    requires Leads(from, a, at, loop) && at.fiber.pc == InSubmission(Head) && at.shared.gate.Free?
    requires at.fiber.input.next.Some? || at.fiber.run.late > 0
    ensures var once := OneRun(at.shared, a, at.fiber, chs, loop); Leads(from, a, once, loop) && once.shared.gate.Free?
  {
    StartAlone(from, a, at, loop);
    var started := RunStarted(at.shared, a, at.fiber);
    RunAlone(from, a, started, chs, loop);
    RunKeepsGateFree(started.shared, a, started.fiber, chs, loop);
    var ran := RunFrom(started.shared, a, started.fiber, chs, loop);
    if ran.fiber.pc == InSubmission(PullCheck) { AfterRunAlone(from, a, ran, loop); }
  }

  /** MAIN: a whole submission is a sequence of the machine's steps. */
  lemma {:induction false} SubmissionAlone(
    from: Stepped, a: nat, at: Stepped, runs: seq<seq<Choice>>, loop: AgentLoop.Loop)
    requires Leads(from, a, at, loop) && at.fiber.pc == InSubmission(Head) && at.shared.gate.Free?
    ensures Leads(from, a, SubmissionFrom(at.shared, a, at.fiber, runs, loop), loop)
    decreases |runs|
  {
    if at.fiber.input.next.None? && at.fiber.run.late == 0 {
      OnSubmission(from, a, at, DoHead(at.shared, at.fiber), loop);
    } else if runs != [] {
      OneRunAlone(from, a, at, runs[0], loop);
      var once := OneRun(at.shared, a, at.fiber, runs[0], loop);
      if once.fiber.pc == InSubmission(Head) { SubmissionAlone(from, a, once, runs[1..], loop); }
    }
  }

  // -------------------------------------------------------------------- its release

  /** The progress settled for whoever joins later, and the fibre slot cleared. */
  function Settling(sh: Shared, f: Fiber): Stepped {
    var g := AtRelease(f, WaitGate);
    if sh.activeFiber.None? then Stepped(sh, g)
    else
      Stepped(sh.(settledFiber := Some(Settled(sh.activeFiber.value, sh.progress)), activeFiber := None),
              g.(exit := f.exit.(target := sh.activeFiber.value, landed := sh.progress)))
  }

  /** Admission withdrawn and both queues emptied, under one permit. */
  function Idled(sh: Shared, f: Fiber): Stepped {
    var idle := DoSetIdle(sh, f).shared;
    Stepped(idle.(steering := [], followUps := []),
            f.(pc := Exited, steers := f.steers.(dropped := sh.steering),
               follows := f.follows.(dropped := sh.followUps)))
  }

  function Released(sh: Shared, f: Fiber): Stepped {
    var settled := Settling(sh, f);
    Idled(settled.shared, settled.fiber)
  }

  lemma OnRelease(from: Stepped, a: nat, at: Stepped, q: ReleasePC, loop: AgentLoop.Loop)
    requires Leads(from, a, at, loop) && at.fiber.pc == InRelease(q)
    ensures Leads(from, a, AdvanceRelease(at.shared, a, at.fiber, q), loop)
  {
    LeadsOn(from, a, at, NO_CALLS, loop);
  }

  lemma ClearAlone(from: Stepped, a: nat, at: Stepped, loop: AgentLoop.Loop)
    requires Leads(from, a, at, loop) && at.fiber.pc == InRelease(ClearFiber)
    ensures Leads(from, a, Stepped(at.shared.(activeFiber := None), AtRelease(at.fiber, WaitGate)), loop)
  {
    OnRelease(from, a, at, ClearFiber, loop);
  }

  lemma CopyAlone(from: Stepped, a: nat, at: Stepped, loop: AgentLoop.Loop)
    requires Leads(from, a, at, loop) && at.fiber.pc == InRelease(ReadProgress)
    ensures var sh, f := at.shared, at.fiber;
            Leads(from, a, Stepped(sh.(settledFiber := Some(Settled(f.exit.target, sh.progress))),
                                   AtRelease(f, ClearFiber).(exit := f.exit.(landed := sh.progress))), loop)
  {
    OnRelease(from, a, at, ReadProgress, loop);
    var read := AtRelease(at.fiber, Settle).(exit := at.fiber.exit.(landed := at.shared.progress));
    OnRelease(from, a, Stepped(at.shared, read), Settle, loop);
  }

  lemma SettleAlone(from: Stepped, a: nat, at: Stepped, loop: AgentLoop.Loop)
    requires Leads(from, a, at, loop) && at.fiber.pc == InRelease(ReadFiber)
    ensures Leads(from, a, Settling(at.shared, at.fiber), loop)
  {
    var sh, f := at.shared, at.fiber;
    OnRelease(from, a, at, ReadFiber, loop);
    if sh.activeFiber.Some? {
      var read := AtRelease(f, ReadProgress).(exit := f.exit.(target := sh.activeFiber.value));
      CopyAlone(from, a, Stepped(sh, read), loop);
      ClearAlone(from, a, Stepped(sh.(settledFiber := Some(Settled(sh.activeFiber.value, sh.progress))),
                                  AtRelease(read, ClearFiber).(exit := read.exit.(landed := sh.progress))), loop);
    } else {
      ClearAlone(from, a, Stepped(sh, AtRelease(f, ClearFiber)), loop);
      assert sh.(activeFiber := None) == sh;
    }
  }

  lemma IdleAlone(from: Stepped, a: nat, at: Stepped, loop: AgentLoop.Loop)
    requires Leads(from, a, at, loop) && at.fiber.pc == InRelease(WaitGate) && at.shared.gate.Free?
    ensures Leads(from, a, Stepped(DoSetIdle(at.shared, at.fiber).shared.(gate := BySub(a)),
                                   AtRelease(at.fiber, DropSteering)), loop)
  {
    OnRelease(from, a, at, WaitGate, loop);
    SetIdleAlone(from, a, Stepped(at.shared.(gate := BySub(a)), AtRelease(at.fiber, SetIdle)), loop);
  }

  lemma SetIdleAlone(from: Stepped, a: nat, at: Stepped, loop: AgentLoop.Loop)
    requires Leads(from, a, at, loop) && at.fiber.pc == InRelease(SetIdle)
    ensures Leads(from, a, DoSetIdle(at.shared, at.fiber), loop)
  {
    OnRelease(from, a, at, SetIdle, loop);
  }

  lemma DropOne(from: Stepped, a: nat, at: Stepped, loop: AgentLoop.Loop)
    requires Leads(from, a, at, loop) && at.fiber.pc == InRelease(DropSteering)
    ensures var steers := at.fiber.steers.(dropped := at.shared.steering);
            Leads(from, a, Stepped(at.shared.(steering := []),
                                   AtRelease(at.fiber, DropFollowUps).(steers := steers)), loop)
  {
    OnRelease(from, a, at, DropSteering, loop);
  }

  lemma DropTwo(from: Stepped, a: nat, at: Stepped, loop: AgentLoop.Loop)
    requires Leads(from, a, at, loop) && at.fiber.pc == InRelease(DropFollowUps)
    ensures var follows := at.fiber.follows.(dropped := at.shared.followUps);
            Leads(from, a, Stepped(at.shared.(followUps := [], gate := Free),
                                   at.fiber.(pc := Exited, follows := follows)), loop)
  {
    var follows := at.fiber.follows.(dropped := at.shared.followUps);
    OnRelease(from, a, at, DropFollowUps, loop);
    DropThree(from, a, Stepped(at.shared.(followUps := []), AtRelease(at.fiber, OpenGate).(follows := follows)), loop);
  }

  lemma DropThree(from: Stepped, a: nat, at: Stepped, loop: AgentLoop.Loop)
    requires Leads(from, a, at, loop) && at.fiber.pc == InRelease(OpenGate)
    ensures Leads(from, a, Stepped(at.shared.(gate := Free), at.fiber.(pc := Exited)), loop)
  {
    OnRelease(from, a, at, OpenGate, loop);
  }

  lemma DropAlone(from: Stepped, a: nat, at: Stepped, loop: AgentLoop.Loop)
    requires Leads(from, a, at, loop) && at.fiber.pc == InRelease(DropSteering)
    ensures var sh, f := at.shared, at.fiber;
            Leads(from, a, Stepped(sh.(steering := [], followUps := [], gate := Free),
                                   f.(pc := Exited, steers := f.steers.(dropped := sh.steering),
                                      follows := f.follows.(dropped := sh.followUps))), loop)
  {
    DropOne(from, a, at, loop);
    var steers := at.fiber.steers.(dropped := at.shared.steering);
    DropTwo(from, a, Stepped(at.shared.(steering := []), AtRelease(at.fiber, DropFollowUps).(steers := steers)), loop);
  }

  /** MAIN: a whole release is a sequence of the machine's steps. */
  lemma ReleaseAlone(from: Stepped, a: nat, at: Stepped, loop: AgentLoop.Loop)
    requires Leads(from, a, at, loop) && at.fiber.pc == InRelease(ReadFiber) && at.shared.gate.Free?
    ensures Leads(from, a, Released(at.shared, at.fiber), loop)
  {
    SettleAlone(from, a, at, loop);
    var settled := Settling(at.shared, at.fiber);
    IdleAlone(from, a, settled, loop);
    DropAlone(from, a, Stepped(DoSetIdle(settled.shared, settled.fiber).shared.(gate := BySub(a)),
                               AtRelease(settled.fiber, DropSteering)), loop);
  }

  // ------------------------------------------------------------- alone is a schedule

  function Advances(a: nat, steps: seq<Choice>): (acts: seq<Act>)
    ensures |acts| == |steps|
  {
    seq(|steps|, i requires 0 <= i < |steps| => Advance(a, steps[i]))
  }

  lemma TickIsAct(s: State, a: nat, at: Stepped, ch: Choice, loop: AgentLoop.Loop)
    requires a in s.fibers && s.shared == at.shared && s.fibers[a] == at.fiber
    ensures Step(s, Advance(a, ch), loop) == Committed(s, a, Ticked(at, a, ch, loop))
  {
  }

  lemma AfterAct(seed: seq<nat>, acts: seq<Act>, act: Act, loop: AgentLoop.Loop)
    ensures After(seed, acts + [act], loop) == Step(After(seed, acts, loop), act, loop)
  {
    assert (acts + [act])[..|acts|] == acts;
  }

  lemma CommittedTwice(s: State, a: nat, r: Stepped, t: Stepped)
    ensures Committed(Committed(s, a, r), a, t) == Committed(s, a, t)
  {
    assert s.fibers[a := r.fiber][a := t.fiber] == s.fibers[a := t.fiber];
  }

  /** MAIN: what the fibre does alone, from wherever a schedule has led, is a schedule that goes on from there. */
  lemma {:induction false} AloneIsScheduled(
    seed: seq<nat>, acts: seq<Act>, a: nat, steps: seq<Choice>, loop: AgentLoop.Loop)
    requires a in After(seed, acts, loop).fibers
    ensures var s := After(seed, acts, loop);
            After(seed, acts + Advances(a, steps), loop)
              == Committed(s, a, Alone(Stepped(s.shared, s.fibers[a]), a, steps, loop))
    decreases |steps|
  {
    var s := After(seed, acts, loop);
    var from := Stepped(s.shared, s.fibers[a]);
    if steps == [] {
      assert acts + Advances(a, []) == acts;
      assert s.fibers[a := s.fibers[a]] == s.fibers;
    } else {
      var n := |steps| - 1;
      AloneIsScheduled(seed, acts, a, steps[..n], loop);
      AdvancesMore(acts, a, steps);
      ScheduledStep(seed, acts + Advances(a, steps[..n]), s, a, Alone(from, a, steps[..n], loop), steps[n], loop);
    }
  }

  lemma AdvancesMore(acts: seq<Act>, a: nat, steps: seq<Choice>)
    requires steps != []
    ensures acts + Advances(a, steps) == (acts + Advances(a, steps[..|steps| - 1])) + [Advance(a, steps[|steps| - 1])]
  {
  }

  lemma ScheduledStep(seed: seq<nat>, acts: seq<Act>, s: State, a: nat, at: Stepped, ch: Choice, loop: AgentLoop.Loop)
    requires a in s.fibers && After(seed, acts, loop) == Committed(s, a, at)
    ensures After(seed, acts + [Advance(a, ch)], loop) == Committed(s, a, Ticked(at, a, ch, loop))
  {
    AfterAct(seed, acts, Advance(a, ch), loop);
    ScheduleOneMore(s, a, at, ch, loop);
  }

  lemma ScheduleOneMore(s: State, a: nat, at: Stepped, ch: Choice, loop: AgentLoop.Loop)
    requires a in s.fibers
    ensures Step(Committed(s, a, at), Advance(a, ch), loop) == Committed(s, a, Ticked(at, a, ch, loop))
  {
    TickIsAct(Committed(s, a, at), a, at, ch, loop);
    CommittedTwice(s, a, at, Ticked(at, a, ch, loop));
  }

  /** A schedule that goes on from `acts` by steps of submission `a` only brings it to `to`, and moves nothing else. */
  ghost predicate Scheduled(seed: seq<nat>, acts: seq<Act>, a: nat, to: Stepped, loop: AgentLoop.Loop) {
    exists steps: seq<Choice> ::
      After(seed, acts + Advances(a, steps), loop) == Committed(After(seed, acts, loop), a, to)
  }

  /** Where a schedule has led the shared references and the fibre of submission `a`. */
  function Reached(seed: seq<nat>, acts: seq<Act>, a: nat, loop: AgentLoop.Loop): Stepped
    requires a in After(seed, acts, loop).fibers
  {
    var s := After(seed, acts, loop);
    Stepped(s.shared, s.fibers[a])
  }

  lemma LeadsIsScheduled(seed: seq<nat>, acts: seq<Act>, a: nat, to: Stepped, loop: AgentLoop.Loop)
    requires a in After(seed, acts, loop).fibers && Leads(Reached(seed, acts, a, loop), a, to, loop)
    ensures Scheduled(seed, acts, a, to, loop)
  {
    var steps: seq<Choice> :| Alone(Reached(seed, acts, a, loop), a, steps, loop) == to;
    AloneIsScheduled(seed, acts, a, steps, loop);
  }

  /** MAIN: so a whole run, wherever a schedule has led to one of its turn boundaries, is a schedule that goes on. */
  lemma RunIsScheduled(seed: seq<nat>, acts: seq<Act>, a: nat, chs: seq<Choice>, loop: AgentLoop.Loop)
    requires a in After(seed, acts, loop).fibers
    requires var at := Reached(seed, acts, a, loop); at.fiber.pc == InSteering(false, SteerWait) && at.shared.gate.Free?
    ensures var at := Reached(seed, acts, a, loop);
            Scheduled(seed, acts, a, RunFrom(at.shared, a, at.fiber, chs, loop), loop)
  {
    var at := Reached(seed, acts, a, loop);
    LeadsNowhere(at, a, loop);
    RunAlone(at, a, at, chs, loop);
    LeadsIsScheduled(seed, acts, a, RunFrom(at.shared, a, at.fiber, chs, loop), loop);
  }

  /** MAIN: and so is a whole submission, from the head of its loop. */
  lemma SubmissionIsScheduled(seed: seq<nat>, acts: seq<Act>, a: nat, runs: seq<seq<Choice>>, loop: AgentLoop.Loop)
    requires a in After(seed, acts, loop).fibers
    requires var at := Reached(seed, acts, a, loop); at.fiber.pc == InSubmission(Head) && at.shared.gate.Free?
    ensures var at := Reached(seed, acts, a, loop);
            Scheduled(seed, acts, a, SubmissionFrom(at.shared, a, at.fiber, runs, loop), loop)
  {
    var at := Reached(seed, acts, a, loop);
    LeadsNowhere(at, a, loop);
    SubmissionAlone(at, a, at, runs, loop);
    LeadsIsScheduled(seed, acts, a, SubmissionFrom(at.shared, a, at.fiber, runs, loop), loop);
  }

  /** MAIN: and a whole release, from wherever a fibre leaves its body. */
  lemma ReleaseIsScheduled(seed: seq<nat>, acts: seq<Act>, a: nat, loop: AgentLoop.Loop)
    requires a in After(seed, acts, loop).fibers
    requires var at := Reached(seed, acts, a, loop); at.fiber.pc == InRelease(ReadFiber) && at.shared.gate.Free?
    ensures var at := Reached(seed, acts, a, loop); Scheduled(seed, acts, a, Released(at.shared, at.fiber), loop)
  {
    var at := Reached(seed, acts, a, loop);
    LeadsNowhere(at, a, loop);
    ReleaseAlone(at, a, at, loop);
    LeadsIsScheduled(seed, acts, a, Released(at.shared, at.fiber), loop);
  }

  /** What a submission's fibre comes to with its release, which is its finalizer. */
  function Performed(sh: Shared, a: nat, f: Fiber, runs: seq<seq<Choice>>, loop: AgentLoop.Loop): Stepped {
    var done := SubmissionFrom(sh, a, f, runs, loop);
    if done.fiber.pc == InRelease(ReadFiber) then Released(done.shared, done.fiber) else done
  }

  lemma {:induction false} SubmissionKeepsGateFree(
    sh: Shared, a: nat, f: Fiber, runs: seq<seq<Choice>>, loop: AgentLoop.Loop)
    requires sh.gate.Free?
    ensures SubmissionFrom(sh, a, f, runs, loop).shared.gate.Free?
    decreases |runs|
  {
    if (f.input.next.Some? || f.run.late > 0) && runs != [] {
      OneRunKeepsGateFree(sh, a, f, runs[0], loop);
      var once := OneRun(sh, a, f, runs[0], loop);
      SubmissionKeepsGateFree(once.shared, a, once.fiber, runs[1..], loop);
    }
  }

  lemma OneRunKeepsGateFree(sh: Shared, a: nat, f: Fiber, chs: seq<Choice>, loop: AgentLoop.Loop)
    requires sh.gate.Free?
    ensures OneRun(sh, a, f, chs, loop).shared.gate.Free?
  {
    var started := RunStarted(sh, a, f);
    RunKeepsGateFree(started.shared, a, started.fiber, chs, loop);
  }

  lemma PerformedAlone(from: Stepped, a: nat, at: Stepped, runs: seq<seq<Choice>>, loop: AgentLoop.Loop)
    requires Leads(from, a, at, loop) && at.fiber.pc == InSubmission(Head) && at.shared.gate.Free?
    ensures Leads(from, a, Performed(at.shared, a, at.fiber, runs, loop), loop)
  {
    SubmissionAlone(from, a, at, runs, loop);
    SubmissionKeepsGateFree(at.shared, a, at.fiber, runs, loop);
    var done := SubmissionFrom(at.shared, a, at.fiber, runs, loop);
    if done.fiber.pc == InRelease(ReadFiber) { ReleaseAlone(from, a, done, loop); }
  }

  /** Alone, nothing more is accepted. */
  predicate SameAccepted(f: Fiber, g: Fiber) {
    g.steers.accepted == f.steers.accepted && g.follows.accepted == f.follows.accepted
  }

  lemma AdvanceKeepsAccepted(
    sh: Shared, a: nat, f: Fiber, outcome: Option<ToolBatch.Work>, verdict: AgentLoop.Verdict)
    ensures SameAccepted(f, DoAdvance(sh, a, f, outcome, verdict).fiber)
  {
  }

  lemma {:induction false} AloneKeepsAccepted(at: Stepped, a: nat, steps: seq<Choice>, loop: AgentLoop.Loop)
    ensures SameAccepted(at.fiber, Alone(at, a, steps, loop).fiber)
    decreases |steps|
  {
    if steps != [] {
      var before, ch := Alone(at, a, steps[..|steps| - 1], loop), steps[|steps| - 1];
      AloneKeepsAccepted(at, a, steps[..|steps| - 1], loop);
      AdvanceKeepsAccepted(before.shared, a, before.fiber, OutcomeOf(before.fiber, ch),
                           AgentLoop.Decide(loop, Asked(before.fiber, ch)).verdict);
    }
  }

  /** MAIN: a submission's body and its release together are a schedule that goes on, which accepts nothing. */
  lemma PerformedIsScheduled(seed: seq<nat>, acts: seq<Act>, a: nat, runs: seq<seq<Choice>>, loop: AgentLoop.Loop)
    requires a in After(seed, acts, loop).fibers
    requires var at := Reached(seed, acts, a, loop); at.fiber.pc == InSubmission(Head) && at.shared.gate.Free?
    ensures var at := Reached(seed, acts, a, loop);
            var to := Performed(at.shared, a, at.fiber, runs, loop);
            Scheduled(seed, acts, a, to, loop) && SameAccepted(at.fiber, to.fiber)
  {
    var at := Reached(seed, acts, a, loop);
    LeadsNowhere(at, a, loop);
    PerformedAlone(at, a, at, runs, loop);
    var to := Performed(at.shared, a, at.fiber, runs, loop);
    LeadsIsScheduled(seed, acts, a, to, loop);
    var steps: seq<Choice> :| Alone(at, a, steps, loop) == to;
    AloneKeepsAccepted(at, a, steps, loop);
  }
}
