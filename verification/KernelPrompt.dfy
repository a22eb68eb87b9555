/**
 A prompt from its claim to the idle session it leaves, when nobody interferes: the submission commits the prompt, the
 turns its script tells of and nothing else, completes, and is settled with its own progress.
 */
module KernelPrompt {
  import opened Base
  import opened Kernel
  import opened KernelAlone
  import opened KernelFiber
  import opened KernelInvariant
  import opened KernelScript
  import AgentLoop
  import KernelFinish
  import ToolBatch

  // -------------------------------------------------------- a submission's one run

  /** A submission about to commit its prompt, with nothing queued. */
  predicate AboutToPrompt(sh: Shared, f: Fiber, body: nat) {
    && sh.gate.Free? && sh.steering == [] && sh.followUps == []
    && f.pc == InSubmission(Head) && f.input == Inputs(Some(Initial(body)), [], []) && f.run.late == 0
  }

  lemma StartsAt(sh: Shared, a: nat, f: Fiber, body: nat)
    requires AboutToPrompt(sh, f, body)
    ensures RunStarted(sh, a, f)
         == Stepped(sh.(history := sh.history + [Prompted(a, body)], progress := sh.progress.(runs := f.runs + 1),
                        state := sh.state.(acceptingSteering := true)),
                    f.(pc := InSteering(false, SteerWait), input := Inputs(None, [], []), runs := f.runs + 1,
                       run := RunLocals(0, 0, false, 0, 0, None)))
  {
  }

  /** After a run with nothing queued, follow-ups are closed and there is no next input. */
  lemma NothingFollows(sh: Shared, f: Fiber)
    requires sh.followUps == [] && f.pc == InSubmission(PullCheck) && f.input == Inputs(None, [], []) && f.run.late == 0
    ensures AfterRun(sh, f)
         == Stepped(sh.(state := sh.state.(acceptingFollowUps := false)), f.(pc := InSubmission(Head)))
  {
    assert sh.(followUps := []) == sh;
  }

  /** The submission's body, done: its prompt and its turns in history, and its completion. */
  predicate BodyDone(sh: Shared, a: nat, f: Fiber, body: nat, works: seq<ToolBatch.Work>, r: Stepped) {
    && r.shared == sh.(history := (sh.history + [Prompted(a, body)])
                                  + TurnEntries(a, f.runs + 1, 0, |sh.history| + 1, works),
                       progress := Progress(sh.progress.owner, f.runs + 1, sh.progress.turns + |works|),
                       state := sh.state.(acceptingSteering := false, acceptingFollowUps := false))
    && r.fiber.pc == InRelease(ReadFiber) && r.fiber.exit.completed && r.fiber.runs == f.runs + 1
    && SameLogs(f, r.fiber)
  }

  predicate SameLogs(f: Fiber, g: Fiber) {
    g.steers == f.steers && g.follows == f.follows
  }

  lemma OneRunDoes(
    loop: AgentLoop.Loop, sh: Shared, a: nat, f: Fiber, body: nat, chs: seq<Choice>, works: seq<ToolBatch.Work>)
    requires AboutToPrompt(sh, f, body) && Script(loop, 0, 0, false, chs, works)
    ensures var once := OneRun(sh, a, f, chs, loop);
            && once.fiber.pc == InSubmission(Head) && once.fiber.input.next.None? && once.fiber.run.late == 0
            && BodyDone(sh, a, f, body, works, DoHead(once.shared, once.fiber))
  {
    var started := RunStarted(sh, a, f);
    StartsAt(sh, a, f, body);
    ScriptRuns(loop, started.shared, a, started.fiber, chs, works);
    var ran := RunFrom(started.shared, a, started.fiber, chs, loop);
    NothingFollows(ran.shared, ran.fiber);
  }

  lemma SubmissionDoes(
    loop: AgentLoop.Loop, sh: Shared, a: nat, f: Fiber, body: nat, chs: seq<Choice>, works: seq<ToolBatch.Work>)
    requires AboutToPrompt(sh, f, body) && Script(loop, 0, 0, false, chs, works)
    ensures BodyDone(sh, a, f, body, works, SubmissionFrom(sh, a, f, [chs], loop))
  {
    OneRunDoes(loop, sh, a, f, body, chs, works);
    var once := OneRun(sh, a, f, chs, loop);
    assert [chs][1..] == [];
    assert SubmissionFrom(once.shared, a, once.fiber, [], loop) == DoHead(once.shared, once.fiber);
  }

  /** A prompt's whole effect on the session and its fibre. */
  predicate PromptDone(before: Shared, a: nat, body: nat, works: seq<ToolBatch.Work>, after: Shared, f: Fiber) {
    && after.history == (before.history + [Prompted(a, body)]) + TurnEntries(a, 1, 0, |before.history| + 1, works)
    && after.state == SessionState(Idle, a, None, false, false)
    && after.steering == [] && after.followUps == [] && after.gate.Free? && after.activeFiber.None?
    && after.settledFiber == Some(Settled(a, Progress(a, 1, |works|)))
    && f.pc.Exited? && f.exit.completed && f.runs == 1
  }

  lemma PerformsPrompt(
    loop: AgentLoop.Loop, sh: Shared, a: nat, f: Fiber, body: nat, chs: seq<Choice>, works: seq<ToolBatch.Work>)
    requires AboutToPrompt(sh, f, body) && Script(loop, 0, 0, false, chs, works)
    requires f.runs == 0 && sh.progress == Progress(a, 0, 0) && sh.activeFiber == Some(a)
    requires sh.state == SessionState(Running, a, Some(a), true, true)
    ensures var r := Performed(sh, a, f, [chs], loop); PromptDone(sh, a, body, works, r.shared, r.fiber)
  {
    SubmissionDoes(loop, sh, a, f, body, chs, works);
  }

  // ------------------------------------------------------------------ its admission

  lemma ThenAct(seed: seq<nat>, acts: seq<Act>, act: Act, s: State, loop: AgentLoop.Loop)
    requires After(seed, acts, loop) == s
    ensures After(seed, acts + [act], loop) == Step(s, act, loop)
  {
    AfterAct(seed, acts, act, loop);
  }

  function Introduction(body: nat, a: nat): seq<Act> {
    [Claim(body), Admit(a), Admit(a), Admit(a), Admit(a), Advance(a, NO_CALLS)]
  }

  /** The session as a new submission finds it, once admitted. */
  function Introduced(sh: Shared, a: nat): Shared {
    sh.(state := SessionState(Running, a, Some(a), true, true), progress := Progress(a, 0, 0), activeFiber := Some(a))
  }

  function Newcomer(body: nat): Fiber {
    NewFiber(body).(admission := Receipted, pc := InSubmission(Head))
  }

  lemma ClaimSteps(s: State, body: nat, loop: AgentLoop.Loop)
    requires s.shared.state.status.Idle?
    ensures var a := s.shared.state.count + 1;
            Step(s, Claim(body), loop)
              == State(s.shared.(state := SessionState(Running, a, Some(a), true, true)),
                       s.fibers[a := NewFiber(body)], s.callers)
  {
  }

  lemma FiberTwice(m: map<nat, Fiber>, a: nat, f: Fiber, g: Fiber)
    ensures m[a := f][a := g] == m[a := g]
  {
  }

  lemma AdmitSteps(
    sh: Shared, fibers: map<nat, Fiber>, callers: map<nat, Caller>, a: nat, f: Fiber, loop: AgentLoop.Loop)
    ensures var r := DoAdmit(sh, a, f);
            Step(State(sh, fibers[a := f], callers), Admit(a), loop) == State(r.shared, fibers[a := r.fiber], callers)
  {
    FiberTwice(fibers, a, f, DoAdmit(sh, a, f).fiber);
  }

  lemma AdmitTwice(
    seed: seq<nat>, acts: seq<Act>, at: Stepped, fibers: map<nat, Fiber>, callers: map<nat, Caller>, a: nat,
    loop: AgentLoop.Loop)
    requires After(seed, acts, loop) == State(at.shared, fibers[a := at.fiber], callers)
    ensures var one := DoAdmit(at.shared, a, at.fiber);
            var two := DoAdmit(one.shared, a, one.fiber);
            After(seed, acts + [Admit(a), Admit(a)], loop) == State(two.shared, fibers[a := two.fiber], callers)
  {
    var one := DoAdmit(at.shared, a, at.fiber);
    ThenAct(seed, acts, Admit(a), State(at.shared, fibers[a := at.fiber], callers), loop);
    AdmitSteps(at.shared, fibers, callers, a, at.fiber, loop);
    ThenAct(seed, acts + [Admit(a)], Admit(a), State(one.shared, fibers[a := one.fiber], callers), loop);
    AdmitSteps(one.shared, fibers, callers, a, one.fiber, loop);
    assert (acts + [Admit(a)]) + [Admit(a)] == acts + [Admit(a), Admit(a)];
  }

  /** A new fibre, half admitted. */
  function HalfAdmitted(body: nat): Fiber {
    NewFiber(body).(admission := Forked, pc := InSubmission(Waiting))
  }

  lemma FirstHalf(sh: Shared, a: nat, body: nat)
    ensures var one := DoAdmit(sh, a, NewFiber(body));
            DoAdmit(one.shared, a, one.fiber) == Stepped(sh.(progress := Progress(a, 0, 0)), HalfAdmitted(body))
  {
  }

  lemma SecondHalf(sh: Shared, a: nat, body: nat)
    ensures var three := DoAdmit(sh, a, HalfAdmitted(body));
            DoAdmit(three.shared, a, three.fiber)
              == Stepped(sh.(activeFiber := Some(a)),
                         NewFiber(body).(admission := Receipted, pc := InSubmission(Waiting)))
  {
  }

  lemma FirstAdvance(
    sh: Shared, fibers: map<nat, Fiber>, callers: map<nat, Caller>, a: nat, f: Fiber, loop: AgentLoop.Loop)
    requires f.pc == InSubmission(Waiting) && f.admission.Receipted?
    ensures Step(State(sh, fibers[a := f], callers), Advance(a, NO_CALLS), loop)
         == State(sh, fibers[a := f.(pc := InSubmission(Head))], callers)
  {
    FiberTwice(fibers, a, f, f.(pc := InSubmission(Head)));
  }

  lemma Introduces(seed: seq<nat>, acts: seq<Act>, s: State, body: nat, loop: AgentLoop.Loop)
    requires After(seed, acts, loop) == s && s.shared.state.status.Idle?
    ensures var a := s.shared.state.count + 1;
            After(seed, acts + Introduction(body, a), loop)
              == State(Introduced(s.shared, a), s.fibers[a := Newcomer(body)], s.callers)
  {
    var a := s.shared.state.count + 1;
    Claims(seed, acts, s, body, loop);
    Admits(seed, acts + [Claim(body)], s.shared.(state := SessionState(Running, a, Some(a), true, true)), s.fibers,
           s.callers, a, body, loop);
    assert (acts + [Claim(body)]) + Introduction(body, a)[1..] == acts + Introduction(body, a);
  }

  lemma Claims(seed: seq<nat>, acts: seq<Act>, s: State, body: nat, loop: AgentLoop.Loop)
    requires After(seed, acts, loop) == s && s.shared.state.status.Idle?
    ensures var a := s.shared.state.count + 1;
            After(seed, acts + [Claim(body)], loop)
              == State(s.shared.(state := SessionState(Running, a, Some(a), true, true)),
                       s.fibers[a := NewFiber(body)], s.callers)
  {
    ThenAct(seed, acts, Claim(body), s, loop);
    ClaimSteps(s, body, loop);
  }

  lemma Admits(
    seed: seq<nat>, acts: seq<Act>, sh: Shared, fibers: map<nat, Fiber>, callers: map<nat, Caller>, a: nat, body: nat,
    loop: AgentLoop.Loop)
    requires After(seed, acts, loop) == State(sh, fibers[a := NewFiber(body)], callers)
    ensures After(seed, acts + Introduction(body, a)[1..], loop)
         == State(sh.(progress := Progress(a, 0, 0), activeFiber := Some(a)), fibers[a := Newcomer(body)], callers)
  {
    var half := sh.(progress := Progress(a, 0, 0));
    var whole, f := half.(activeFiber := Some(a)), NewFiber(body).(admission := Receipted, pc := InSubmission(Waiting));
    var x3 := acts + [Admit(a), Admit(a)];
    var x5 := x3 + [Admit(a), Admit(a)];
    AdmitTwice(seed, acts, Stepped(sh, NewFiber(body)), fibers, callers, a, loop);
    FirstHalf(sh, a, body);
    AdmitTwice(seed, x3, Stepped(half, HalfAdmitted(body)), fibers, callers, a, loop);
    SecondHalf(half, a, body);
    ThenAct(seed, x5, Advance(a, NO_CALLS), State(whole, fibers[a := f], callers), loop);
    FirstAdvance(whole, fibers, callers, a, f, loop);
    assert x5 + [Advance(a, NO_CALLS)] == acts + Introduction(body, a)[1..];
  }

  /** An idle session with its gate free has nothing queued. */
  lemma IdleIsEmpty(seed: seq<nat>, acts: seq<Act>, s: State, loop: AgentLoop.Loop)
    requires s == After(seed, acts, loop) && s.shared.state.status.Idle? && s.shared.gate.Free?
    ensures s.shared.steering == [] && s.shared.followUps == []
  {
    Always(seed, acts, loop);
  }

  /**
   MAIN: what a prompt comes to. Wherever a schedule has left a session idle with its gate free, a prompt that nobody
   interferes with has a schedule at whose end history has the prompt and the script's turns, one for each choice, in
   order, with their works, and nothing else; the submission has completed in one run and is settled with that progress;
   and the session is idle again, with nothing queued.
   */
  lemma PromptAlone(
    seed: seq<nat>, acts: seq<Act>, s: State, body: nat, chs: seq<Choice>, works: seq<ToolBatch.Work>,
    loop: AgentLoop.Loop)
    returns (more: seq<Act>)
    requires s == After(seed, acts, loop) && s.shared.state.status.Idle? && s.shared.gate.Free?
    requires Script(loop, 0, 0, false, chs, works)
    ensures KernelFinish.AllOwn(more)
    ensures var t, a := After(seed, acts + ([Claim(body)] + more), loop), s.shared.state.count + 1;
            a in t.fibers && PromptDone(s.shared, a, body, works, t.shared, t.fibers[a])
  {
    var a := s.shared.state.count + 1;
    IdleIsEmpty(seed, acts, s, loop);
    Introduces(seed, acts, s, body, loop);
    var steps := Prompts(seed, acts + Introduction(body, a), s.shared, a, body, chs, works, loop);
    more := Introduction(body, a)[1..] + Advances(a, steps);
    IntroducedThen(acts, body, a, steps);
  }

  lemma IntroducedThen(acts: seq<Act>, body: nat, a: nat, steps: seq<Choice>)
    ensures var more := Introduction(body, a)[1..] + Advances(a, steps);
            && KernelFinish.AllOwn(more)
            && acts + ([Claim(body)] + more) == (acts + Introduction(body, a)) + Advances(a, steps)
  {
    KernelFinish.AdvancesAreOwn(a, steps);
    KernelFinish.AllOwnFrom(Introduction(body, a)[1..], Advances(a, steps));
    assert Introduction(body, a) == [Claim(body)] + Introduction(body, a)[1..];
  }

  lemma Prompts(
    seed: seq<nat>, begun: seq<Act>, sh: Shared, a: nat, body: nat, chs: seq<Choice>, works: seq<ToolBatch.Work>,
    loop: AgentLoop.Loop)
    returns (steps: seq<Choice>)
    requires Script(loop, 0, 0, false, chs, works) && sh.gate.Free? && sh.steering == [] && sh.followUps == []
    requires var s := After(seed, begun, loop);
             s.shared == Introduced(sh, a) && a in s.fibers && s.fibers[a] == Newcomer(body)
    ensures var t := After(seed, begun + Advances(a, steps), loop);
            a in t.fibers && PromptDone(sh, a, body, works, t.shared, t.fibers[a])
  {
    var s := After(seed, begun, loop);
    PerformsPrompt(loop, s.shared, a, s.fibers[a], body, chs, works);
    PerformedIsScheduled(seed, begun, a, [chs], loop);
    var to := Performed(s.shared, a, s.fibers[a], [chs], loop);
    steps :| After(seed, begun + Advances(a, steps), loop) == Committed(s, a, to);
  }
}
