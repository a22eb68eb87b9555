/**
 A session as an object: its references, and the operations that update them in place, each by its own loop
 (src/AgentSession.ts, src/AgentSubmission.ts, src/AgentRun.ts, src/AgentTurn.ts). An operation here runs with
 nobody else stepping; `KernelAlone` says it is then one of the machine's schedules.
 */
module AgentSession {
  import opened Base
  import opened Kernel
  import opened KernelAlone
  import opened KernelFiber
  import opened KernelInvariant
  import KernelScript
  import KernelTheorems
  import AgentLoop
  import ToolBatch

  class Session {
    var state: SessionState
    var history: seq<Entry>
    var progress: Progress
    var steering: seq<Item>
    var followUps: seq<Item>
    var gate: Gate
    var activeFiber: Option<nat>
    var settledFiber: Option<Settled>

    ghost function Refs(): Shared
      reads this
    {
      Shared(state, history, progress, steering, followUps, gate, activeFiber, settledFiber)
    }

    constructor (seed: seq<nat>)
      ensures Refs() == Initially(seed).shared
    {
      state := SessionState(Idle, 0, None, false, false);
      history := seq(|seed|, i requires 0 <= i < |seed| => Seeded(seed[i]));
      progress := Progress(0, 0, 0);
      steering, followUps := [], [];
      gate, activeFiber, settledFiber := Free, None, None;
    }

    /** `claim`: an idle session is taken, and no other. */
    method Claim() returns (id: Option<nat>)
      modifies this`state
      ensures Refs() == DoClaim(State(old(Refs()), map[], map[]), 0).shared
      ensures id.Some? <==> old(state).status.Idle?
      ensures id.Some? ==> state.active == id && id.value == old(state).count + 1
    {
      if state.status != Idle { return None; }
      id := Some(state.count + 1);
      state := SessionState(Running, state.count + 1, id, true, true);
    }

    /** `steer` and `followUp` from their permit on: accepted for the submission addressed, or refused. */
    method Offer(kind: Kind, sub: nat, body: nat) returns (accepted: bool)
      modifies this`steering, this`followUps
      ensures accepted <==> state.status.Running? && state.active == Some(sub) && Accepts(state, kind)
      ensures Refs() == if accepted then Queued(old(Refs()), kind, Item(sub, body)) else old(Refs())
    {
      if state.status != Running || state.active != Some(sub) || !Accepts(state, kind) { return false; }
      match kind {
        case Steering => steering := steering + [Item(sub, body)];
        case FollowUp => followUps := followUps + [Item(sub, body)];
      }
      return true;
    }

    /** `applySteering`. */
    method ApplySteering(a: nat, f: Fiber, late: bool) returns (g: Fiber)
      requires gate.Free?
      modifies this`steering, this`history
      ensures Stepped(Refs(), g) == Steered(old(Refs()), a, f, late)
    {
      var inputs := steering;
      steering := [];
      for i := 0 to |inputs|
        invariant steering == [] && history == old(history) + Applieds(a, inputs[..i])
      {
        assert Applieds(a, inputs[..i + 1]) == Applieds(a, inputs[..i]) + [Applied(a, Steering, inputs[i])];
        history := history + [Applied(a, Steering, inputs[i])];
      }
      assert inputs[..|inputs|] == inputs;
      g := f.(input := f.input.(batch := []), run := f.run.(late := if late then |inputs| else f.run.late));
      if !late {
        g := AtRun(g, StartTurn);
      } else {
        g := AtSubmission(g, PullCheck).(continuations := g.continuations + (if g.run.late > 0 then 1 else 0));
      }
    }

    /** One turn: the model's calls executed, then the commit and its record, or neither. */
    method Turn(a: nat, f: Fiber, ch: Choice) returns (g: Fiber)
      requires gate.Free?
      modifies this`history, this`progress
      ensures Stepped(Refs(), g) == Turned(old(Refs()), a, f, OutcomeOf(f, ch))
    {
      var context := |history|;
      var work := ToolBatch.Turn(ch.batch.(offer := ch.batch.offer.(withheld := f.run.finalTurn)));
      g := f.(run := f.run.(turn := f.run.turn + 1, context := context));
      if work.None? {
        g := AtRelease(g, ReadFiber);
      } else {
        history := history + [TurnDone(a, f.runs, g.run.turn, context, work.value)];
        progress := progress.(turns := progress.turns + 1);
        g := AtRun(g, Decide).(run := g.run.(work := work, tools := g.run.tools + |work.value.calls|));
      }
    }

    /** A turn and the loop's decision after it, which is not asked for after its own final turn. */
    method TakeTurn(a: nat, f: Fiber, ch: Choice, loop: AgentLoop.Loop) returns (g: Fiber)
      requires gate.Free?
      modifies this`history, this`progress
      ensures Stepped(Refs(), g) == TurnDecided(old(Refs()), a, f, ch, loop)
    {
      g := Turn(a, f, ch);
      if g.pc != InRun(Decide) { return; }
      if g.run.finalTurn { return AtRun(g, CloseWait); }
      var verdict := AgentLoop.Decide(loop, Asked(g, ch)).verdict;
      if verdict.Raised? { return AtRelease(g, ReadFiber); }
      match verdict.decision {
        case Continue => g := AtSteering(g, false, SteerWait);
        case Final(_, _) => g := AtSteering(g, false, SteerWait).(run := g.run.(finalTurn := true));
        case Stop(_, _) => g := AtRun(g, CloseWait);
      }
    }

    /** A stopped run's close of steering, and its late drain. */
    method Close(a: nat, f: Fiber) returns (g: Fiber)
      requires gate.Free?
      modifies this`steering, this`history, this`state
      ensures Stepped(Refs(), g) == RunClosed(old(Refs()), a, f)
    {
      state := state.(acceptingSteering := false);
      g := ApplySteering(a, AtSteering(f, true, SteerWait), true);
    }

    /** The loop of `Run`. */
    method Iterate(a: nat, f: Fiber, chs: seq<Choice>, loop: AgentLoop.Loop) returns (g: Fiber)
      requires gate.Free?
      modifies this`steering, this`history, this`progress, this`state
      ensures Stepped(Refs(), g) == RunFrom(old(Refs()), a, f, chs, loop)
    {
      g := f;
      var i := 0;
      while i < |chs|
        invariant i <= |chs|
        invariant RunFrom(Refs(), a, g, chs[i..], loop) == RunFrom(old(Refs()), a, f, chs, loop)
      {
        assert chs[i..][0] == chs[i] && chs[i..][1..] == chs[i + 1..];
        TurnIterates(Refs(), a, g, chs[i..], loop);
        g := ApplySteering(a, g, false);
        g := TakeTurn(a, g, chs[i], loop);
        if g.pc.InRelease? { return; }
        if g.pc == InRun(CloseWait) {
          g := Close(a, g);
          return;
        }
        i := i + 1;
      }
    }

    /**
     `AgentRun.execute` from a turn boundary: turns until the loop says stop, a turn fails, or choices run out.
     Given a script, exactly its turns are committed, and the run is over.
     */
    method Run(a: nat, f: Fiber, chs: seq<Choice>, loop: AgentLoop.Loop) returns (g: Fiber)
      requires gate.Free?
      modifies this`steering, this`history, this`progress, this`state
      ensures Stepped(Refs(), g) == RunFrom(old(Refs()), a, f, chs, loop)
      ensures forall works :: KernelScript.Scripted(loop, old(Refs()), f, chs, works) ==>
                && history == old(history) + KernelScript.TurnEntries(a, f.runs, f.run.turn, |old(history)|, works)
                && progress == old(progress).(turns := old(progress).turns + |works|)
                && g.pc == InSubmission(PullCheck)
    {
      g := Iterate(a, f, chs, loop);
      forall works | KernelScript.Scripted(loop, old(Refs()), f, chs, works)
        ensures && history == old(history) + KernelScript.TurnEntries(a, f.runs, f.run.turn, |old(history)|, works)
                && progress == old(progress).(turns := old(progress).turns + |works|)
                && g.pc == InSubmission(PullCheck)
      {
        KernelScript.ScriptRuns(loop, old(Refs()), a, f, chs, works);
      }
    }

    /** The next input's run, and what is pulled after it. */
    method RunNext(a: nat, f: Fiber, chs: seq<Choice>, loop: AgentLoop.Loop) returns (g: Fiber)
      requires gate.Free?
      modifies this`steering, this`followUps, this`history, this`progress, this`state
      ensures Stepped(Refs(), g) == OneRun(old(Refs()), a, f, chs, loop)
    {
      g := Begin(a, f);
      g := Run(a, g, chs, loop);
      if g.pc == InSubmission(PullCheck) { g := Next(a, g); }
    }

    /** `AgentSubmission.execute` from the head of its loop, for the runs there are choices for. */
    method Execute(a: nat, f: Fiber, runs: seq<seq<Choice>>, loop: AgentLoop.Loop) returns (g: Fiber)
      requires gate.Free?
      modifies this`steering, this`followUps, this`history, this`progress, this`state
      ensures Stepped(Refs(), g) == SubmissionFrom(old(Refs()), a, f, runs, loop)
    {
      g := f;
      var i := 0;
      while (g.input.next.Some? || g.run.late > 0) && i < |runs|
        invariant i <= |runs|
        invariant SubmissionFrom(Refs(), a, g, runs[i..], loop) == SubmissionFrom(old(Refs()), a, f, runs, loop)
      {
        assert runs[i..][0] == runs[i] && runs[i..][1..] == runs[i + 1..];
        Iterates(Refs(), a, g, runs[i..], loop);
        g := RunNext(a, g, runs[i], loop);
        if g.pc != InSubmission(Head) { return; }
        i := i + 1;
      }
      Finishes(Refs(), a, g, runs[i..], loop);
      if g.input.next.None? && g.run.late == 0 {
        g := AtRelease(g, ReadFiber).(exit := g.exit.(completed := true));
      }
    }

    /** Commit the next input, if there is one, and count its run. */
    method Begin(a: nat, f: Fiber) returns (g: Fiber)
      modifies this`history, this`progress, this`state
      ensures Stepped(Refs(), g) == RunStarted(old(Refs()), a, f)
    {
      match f.input.next {
        case None =>
        case Some(Initial(body)) => history := history + [Prompted(a, body)];
        case Some(Later(item)) => history := history + [Applied(a, FollowUp, item)];
      }
      progress := progress.(runs := f.runs + 1);
      state := state.(acceptingSteering := true);
      g := AtSteering(f, false, SteerWait).(input := f.input.(next := None), runs := f.runs + 1,
                                            run := RunLocals(0, 0, false, 0, 0, None));
    }

    /**
     Pull what was queued, close if there is nothing, and shift the next input: alone, the last drain finds nothing.
     */
    method Next(a: nat, f: Fiber) returns (g: Fiber)
      modifies this`followUps, this`state
      ensures Stepped(Refs(), g) == AfterRun(old(Refs()), f)
    {
      var pending := f.input.pending;
      if pending == [] {
        pending := pending + followUps;
        followUps := [];
      }
      if pending == [] && f.run.late == 0 && state.acceptingFollowUps {
        state := state.(acceptingFollowUps := false);
      }
      if pending == [] {
        g := AtSubmission(f, Head).(input := f.input.(next := None, pending := []));
      } else {
        state := state.(acceptingFollowUps := true);
        g := AtSubmission(f, Head).(input := f.input.(next := Some(Later(pending[0])), pending := pending[1..]));
      }
    }

    /** `release`. */
    method Release(f: Fiber) returns (g: Fiber)
      requires gate.Free?
      modifies this`state, this`steering, this`followUps, this`activeFiber, this`settledFiber
      ensures Stepped(Refs(), g) == Released(old(Refs()), f)
      ensures state.active.None? && !state.acceptingSteering && !state.acceptingFollowUps
      ensures steering == [] && followUps == [] && activeFiber.None?
    {
      g := f;
      if activeFiber.Some? {
        settledFiber := Some(Settled(activeFiber.value, progress));
        g := g.(exit := g.exit.(target := activeFiber.value, landed := progress));
      }
      activeFiber := None;
      var status := if state.status.Closed? then Closed else Idle;
      state := SessionState(status, state.count, None, false, false);
      g := g.(pc := Exited, steers := g.steers.(dropped := steering), follows := g.follows.(dropped := followUps));
      steering, followUps := [], [];
    }

    /** The fibre a submission forks: its body, and then its release. */
    method Perform(a: nat, f: Fiber, runs: seq<seq<Choice>>, loop: AgentLoop.Loop) returns (g: Fiber)
      requires gate.Free?
      modifies this
      ensures Stepped(Refs(), g) == Performed(old(Refs()), a, f, runs, loop)
    {
      g := Execute(a, f, runs, loop);
      if g.pc == InRelease(ReadFiber) { g := Release(g); }
    }
  }

  /** What is known of a submission once its release is done, of the session it leaves and of its own input. */
  ghost predicate Accounted(sh: Shared, a: nat, f: Fiber, accepted: Fiber) {
    && sh.state.active.None? && sh.steering == [] && sh.followUps == []
    && Flat(SteerPipe(sh, a, f, false)) == accepted.steers.accepted
    && Flat(FollowPipe(sh, a, f, false)) == accepted.follows.accepted
    && (f.exit.completed ==>
          && Items(sh.history, Steering, a) == accepted.steers.accepted
          && Items(sh.history, FollowUp, a) == accepted.follows.accepted
          && Answered(sh.history, a))
  }

  lemma ReleasedIsQuiet(sh: Shared, f: Fiber)
    ensures var r := Released(sh, f);
            r.fiber.pc.Exited? && r.shared.state.active.None? && r.shared.steering == [] && r.shared.followUps == []
  {
  }

  /** A schedule at whose end a submission has exited accounts for all it was given. */
  lemma ExitAccounts(seed: seq<nat>, acts: seq<Act>, loop: AgentLoop.Loop, a: nat, r: Stepped, accepted: Fiber)
    requires var s := After(seed, acts, loop); a in s.fibers && s.shared == r.shared && s.fibers[a] == r.fiber
    requires r.fiber.pc.Exited? && SameAccepted(accepted, r.fiber)
    requires r.shared.state.active.None? && r.shared.steering == [] && r.shared.followUps == []
    ensures Accounted(r.shared, a, r.fiber, accepted)
  {
    KernelTheorems.Conservation(seed, acts, loop, a);
    KernelTheorems.CompletedAppliedAll(seed, acts, loop, a);
    KernelTheorems.ExitedOwnsNothing(seed, acts, loop, a);
  }

  /**
   MAIN: whenever a schedule has led a session to the head of a submission's loop with the gate free, the object
   that then performs the submission alone, for any answers of the model and any loop, loses nothing: what was
   accepted is applied, held or dropped, in order; all of it is applied and answered if the submission completes.
   */
  lemma PerformAccounts(seed: seq<nat>, acts: seq<Act>, a: nat, runs: seq<seq<Choice>>, loop: AgentLoop.Loop)
    requires a in After(seed, acts, loop).fibers
    requires var at := Reached(seed, acts, a, loop); at.fiber.pc == InSubmission(Head) && at.shared.gate.Free?
    ensures var at := Reached(seed, acts, a, loop);
            var r := Performed(at.shared, a, at.fiber, runs, loop);
            SubmissionFrom(at.shared, a, at.fiber, runs, loop).fiber.pc == InRelease(ReadFiber) ==>
              Accounted(r.shared, a, r.fiber, at.fiber)
  {
    var at := Reached(seed, acts, a, loop);
    var done := SubmissionFrom(at.shared, a, at.fiber, runs, loop);
    if done.fiber.pc == InRelease(ReadFiber) {
      var r := Released(done.shared, done.fiber);
      PerformedIsScheduled(seed, acts, a, runs, loop);
      ReleasedIsQuiet(done.shared, done.fiber);
      ScheduledAccounts(seed, acts, loop, a, r, at.fiber);
    }
  }

  lemma ScheduledAccounts(seed: seq<nat>, acts: seq<Act>, loop: AgentLoop.Loop, a: nat, r: Stepped, accepted: Fiber)
    requires a in After(seed, acts, loop).fibers && Scheduled(seed, acts, a, r, loop)
    requires r.fiber.pc.Exited? && SameAccepted(accepted, r.fiber)
    requires r.shared.state.active.None? && r.shared.steering == [] && r.shared.followUps == []
    ensures Accounted(r.shared, a, r.fiber, accepted)
  {
    var s := After(seed, acts, loop);
    var steps: seq<Choice> :| After(seed, acts + Advances(a, steps), loop) == Committed(s, a, r);
    ExitAccounts(seed, acts + Advances(a, steps), loop, a, r, accepted);
  }

  /** One iteration of the submission's loop. */
  lemma Iterates(sh: Shared, a: nat, f: Fiber, runs: seq<seq<Choice>>, loop: AgentLoop.Loop)
    requires runs != [] && (f.input.next.Some? || f.run.late > 0)
    ensures var once := OneRun(sh, a, f, runs[0], loop);
            SubmissionFrom(sh, a, f, runs, loop) ==
              if once.fiber.pc == InSubmission(Head)
              then SubmissionFrom(once.shared, a, once.fiber, runs[1..], loop) else once
  {
  }

  /** The end of its loop. */
  lemma Finishes(sh: Shared, a: nat, f: Fiber, runs: seq<seq<Choice>>, loop: AgentLoop.Loop)
    requires (f.input.next.None? && f.run.late == 0) || runs == []
    ensures SubmissionFrom(sh, a, f, runs, loop) ==
              if f.input.next.None? && f.run.late == 0
              then Stepped(sh, AtRelease(f, ReadFiber).(exit := f.exit.(completed := true))) else Stepped(sh, f)
  {
  }

  /** One iteration of a run's loop. */
  lemma TurnIterates(sh: Shared, a: nat, f: Fiber, chs: seq<Choice>, loop: AgentLoop.Loop)
    requires chs != []
    ensures var steered := Steered(sh, a, f, false);
            var decided := TurnDecided(steered.shared, a, steered.fiber, chs[0], loop);
            RunFrom(sh, a, f, chs, loop) ==
              if decided.fiber.pc == InRun(CloseWait) then RunClosed(decided.shared, a, decided.fiber)
              else if decided.fiber.pc.InRelease? then decided
              else RunFrom(decided.shared, a, decided.fiber, chs[1..], loop)
  {
  }
}
