/**
 The session's callers (src/AgentSession.ts:928-1132, 1257-1297): when `steer` and `followUp` are taken, what a caller
 that nobody interrupts comes to, and that what was accepted is applied at the next turn boundary.
 */
module KernelInputs {
  import opened Base
  import opened Kernel
  import opened KernelFiber
  import opened KernelInvariant
  import opened KernelTheorems
  import AgentLoop
  import ToolBatch

  // --------------------------------------------------------- when inputs are taken

  /** Between a run's close of steering and the next run's start. */
  predicate BetweenRuns(f: Fiber) {
    match f.pc
    case Unborn => false
    case InSubmission(q) => f.runs > 0 && !q.Waiting?
    case InRun(q) => q.CloseUnlock? || (q.StartRun? && f.runs > 1)
    case InSteering(late, _) => late
    case InRelease(_) => false
    case Exited => false
  }

  lemma ShutBetweenRuns(f: Fiber)
    requires LocalsOk(f) && !f.pc.InRelease?
    ensures SteerShut(f) <==> BetweenRuns(f)
  {
  }

  /**
   MAIN: while a submission has not left its body, steering is admitted from its claim to the end of its first run and
   within each later run, and at no other time: it is refused between runs.
   */
  lemma SteeringOpenIff(seed: seq<nat>, acts: seq<Act>, s: State, loop: AgentLoop.Loop, a: nat)
    requires s == After(seed, acts, loop)
    ensures s.shared.state.active == Some(a) ==>
              a in s.fibers
              && (!s.fibers[a].pc.InRelease? ==> (s.shared.state.acceptingSteering <==> !BetweenRuns(s.fibers[a])))
  {
    Always(seed, acts, loop);
    if s.shared.state.active == Some(a) && !s.fibers[a].pc.InRelease? { ShutBetweenRuns(s.fibers[a]); }
  }

  /** The check that closes follow-ups has been made, and none has been found since. */
  predicate Closing(f: Fiber) {
    match f.pc
    case InSubmission(q) =>
      || q.LastWait? || q.LastDrain? || q.LastUnlock? || q.Reopen?
      || (f.runs > 0 && f.run.late == 0 && f.input.pending == []
          && (q.Shift? || (q.Head? && f.input.next.None?)))
    case _ => false
  }

  lemma ShutWhenClosing(f: Fiber)
    requires LocalsOk(f) && !f.pc.InRelease?
    ensures FollowShut(f) <==> Closing(f)
  {
  }

  /** MAIN: follow-ups are admitted from the claim to the check that finds none, and again when the last drain does. */
  lemma FollowUpsOpenIff(seed: seq<nat>, acts: seq<Act>, s: State, loop: AgentLoop.Loop, a: nat)
    requires s == After(seed, acts, loop)
    ensures s.shared.state.active == Some(a) ==>
              a in s.fibers
              && (!s.fibers[a].pc.InRelease? ==> (s.shared.state.acceptingFollowUps <==> !Closing(s.fibers[a])))
  {
    Always(seed, acts, loop);
    if s.shared.state.active == Some(a) && !s.fibers[a].pc.InRelease? { ShutWhenClosing(s.fibers[a]); }
  }

  lemma DrainedPipe(s: State, a: nat, f: Fiber, late: bool)
    requires Shape(s) && ActiveOk(s) && a in s.fibers && f == s.fibers[a] && f.pc == InSteering(late, SteerUnlock)
    requires InputsOk(s.shared, a, f, Mine(s, a)) && EndOk(s.shared.history, a, f)
    ensures Items(s.shared.history, Steering, a) == f.steers.accepted
  {
    assert BodyOk(s.shared, a, f);
    AllApplied(SteerPipe(s.shared, a, f, Mine(s, a)));
  }

  lemma AllApplied(p: Pipe)
    requires p.held == [] && p.queued == [] && p.dropped == []
    ensures Flat(p) == p.applied
  {
  }

  /** MAIN: at every turn boundary, all steering accepted so far has been applied, in the order it was accepted. */
  lemma BoundaryAppliesAll(
    seed: seq<nat>, acts: seq<Act>, s: State, loop: AgentLoop.Loop, a: nat, late: bool)
    requires s == After(seed, acts, loop)
    ensures a in s.fibers && s.fibers[a].pc == InSteering(late, SteerUnlock) ==>
              Items(s.shared.history, Steering, a) == s.fibers[a].steers.accepted
  {
    Always(seed, acts, loop);
    AlwaysFiber(seed, acts, loop, a);
    if a in s.fibers && s.fibers[a].pc == InSteering(late, SteerUnlock) { DrainedPipe(s, a, s.fibers[a], late); }
  }

  // --------------------------------------------------------- a caller by itself

  /** A caller's own steps, one after the other. */
  function Proceeded(s: State, c: nat, n: nat, loop: AgentLoop.Loop): State
    decreases n
  {
    if n == 0 then s else Proceeded(Step(s, Proceed(c), loop), c, n - 1, loop)
  }

  function Alone(s: State, c: nat, k: Caller, n: nat, loop: AgentLoop.Loop): State {
    Proceeded(Step(s, Call(c, k), loop), c, n, loop)
  }

  function Proceeds(c: nat, n: nat): (acts: seq<Act>)
    ensures |acts| == n
  {
    seq(n, i => Proceed(c))
  }

  lemma {:induction false} AloneIsSchedule(
    seed: seq<nat>, acts: seq<Act>, c: nat, n: nat, loop: AgentLoop.Loop)
    ensures Proceeded(After(seed, acts, loop), c, n, loop) == After(seed, acts + Proceeds(c, n), loop)
    decreases n
  {
    if n == 0 {
      assert acts + [] == acts;
    } else {
      var next := acts + [Proceed(c)];
      assert next[..|next| - 1] == acts && next[|next| - 1] == Proceed(c);
      AloneIsSchedule(seed, next, c, n - 1, loop);
      assert next + Proceeds(c, n - 1) == acts + Proceeds(c, n);
    }
  }

  /** What the session is asked to take, and whether it does: running, and admitting inputs of the kind. */
  predicate Takes(st: SessionState, kind: Kind) {
    && st.status.Running? && st.active.Some?
    && match kind case Steering => st.acceptingSteering case FollowUp => st.acceptingFollowUps
  }

  /** An input taken: last in its queue and in the submission's logs, accepted and announced. */
  predicate Taken(s: State, t: State, kind: Kind, a: nat, body: nat)
    requires a in s.fibers
  {
    var item := Item(a, body);
    match kind
    case Steering =>
      && t.shared == s.shared.(steering := s.shared.steering + [item])
      && t.fibers == s.fibers[a := s.fibers[a].(steers := s.fibers[a].steers.(
                                     accepted := s.fibers[a].steers.accepted + [item],
                                     announced := s.fibers[a].steers.announced + [item]))]
    case FollowUp =>
      && t.shared == s.shared.(followUps := s.shared.followUps + [item])
      && t.fibers == s.fibers[a := s.fibers[a].(follows := s.fibers[a].follows.(
                                     accepted := s.fibers[a].follows.accepted + [item],
                                     announced := s.fibers[a].follows.announced + [item]))]
  }

  lemma Next(s: State, c: nat, n: nat, loop: AgentLoop.Loop, t: State)
    requires n > 0 && t == Step(s, Proceed(c), loop)
    ensures Proceeded(s, c, n, loop) == Proceeded(t, c, n - 1, loop)
  {
  }

  /** A caller that has been refused or accepted stays so. */
  lemma {:induction false} OfferRests(s: State, c: nat, n: nat, loop: AgentLoop.Loop)
    requires c in s.callers && s.callers[c].Offering? && (s.callers[c].at.Refused? || s.callers[c].at.Accepted?)
    ensures Proceeded(s, c, n, loop) == s
    decreases n
  {
    if n > 0 { OfferRests(s, c, n - 1, loop); }
  }

  lemma OfferTaken(s: State, c: nat, k: Caller, loop: AgentLoop.Loop) returns (t: State)
    requires c !in s.callers && k.Offering? && k.at.Start? && s.shared.gate.Free?
    requires Takes(s.shared.state, k.kind) && s.shared.state.active.value in s.fibers
    ensures t == Alone(s, c, k, 7, loop)
    ensures c in t.callers && t.callers[c].Offering? && t.callers[c].at.Accepted?
    ensures Taken(s, t, k.kind, s.shared.state.active.value, k.body)
  {
    var a := s.shared.state.active.value;
    var k1 := k.(at := Validated, sub := a);
    var u0 := Step(s, Call(c, k), loop);
    var u1 := Step(u0, Proceed(c), loop);
    Next(u0, c, 7, loop, u1);
    assert u1 == At(u0, c, k1);
    var u2 := Step(u1, Proceed(c), loop);
    Next(u1, c, 6, loop, u2);
    assert u2.shared == s.shared.(gate := ByCaller(c)) && u2.fibers == s.fibers && u2.callers[c] == k1.(at := Holding);
    var u3 := Step(u2, Proceed(c), loop);
    Next(u2, c, 5, loop, u3);
    assert u3.shared == u2.shared && u3.fibers == s.fibers && u3.callers[c] == k1.(at := StillActive);
    var u4 := Step(u3, Proceed(c), loop);
    Next(u3, c, 4, loop, u4);
    assert u4.shared == u2.shared && u4.fibers == s.fibers && u4.callers[c] == k1.(at := Accepting);
    t := OfferMade(s, u4, c, k1, loop);
  }

  lemma OfferMade(s: State, u: State, c: nat, k: Caller, loop: AgentLoop.Loop) returns (t: State)
    requires k.Offering? && k.sub in s.fibers && s.shared.gate.Free?
    requires u.shared == s.shared.(gate := ByCaller(c)) && u.fibers == s.fibers
    requires c in u.callers && u.callers[c] == k.(at := Accepting)
    ensures t == Proceeded(u, c, 3, loop)
    ensures c in t.callers && t.callers[c] == k.(at := Accepted) && Taken(s, t, k.kind, k.sub, k.body)
  {
    var u1 := Step(u, Proceed(c), loop);
    Next(u, c, 3, loop, u1);
    assert u1 == DoOffer(u, c, u.callers[c]);
    var u2 := Step(u1, Proceed(c), loop);
    Next(u1, c, 2, loop, u2);
    assert u2 == DoAnnounce(u1, c, u1.callers[c]);
    t := Step(u2, Proceed(c), loop);
    Next(u2, c, 1, loop, t);
    assert t.shared.gate == Free && t.fibers == u2.fibers;
  }

  lemma OfferRefused(s: State, c: nat, k: Caller, loop: AgentLoop.Loop) returns (t: State)
    requires c !in s.callers && k.Offering? && k.at.Start? && s.shared.gate.Free? && !Takes(s.shared.state, k.kind)
    ensures t == Alone(s, c, k, 7, loop)
    ensures c in t.callers && t.callers[c].Offering? && t.callers[c].at.Refused?
    ensures t.shared == s.shared && t.fibers == s.fibers
  {
    var st := s.shared.state;
    var u0 := Step(s, Call(c, k), loop);
    var u1 := Step(u0, Proceed(c), loop);
    Next(u0, c, 7, loop, u1);
    if !(st.status.Running? && st.active.Some?) {
      t := u1;
      OfferRests(u1, c, 6, loop);
    } else {
      var k1 := k.(at := Validated, sub := st.active.value);
      assert u1 == At(u0, c, k1);
      var u2 := Step(u1, Proceed(c), loop);
      Next(u1, c, 6, loop, u2);
      assert u2.shared == s.shared.(gate := ByCaller(c)) && u2.fibers == s.fibers;
      assert u2.callers[c] == k1.(at := Holding);
      var u3 := Step(u2, Proceed(c), loop);
      Next(u2, c, 5, loop, u3);
      assert u3.shared == u2.shared && u3.fibers == s.fibers && u3.callers[c] == k1.(at := StillActive);
      t := Step(u3, Proceed(c), loop);
      Next(u3, c, 4, loop, t);
      OfferRests(t, c, 3, loop);
    }
  }

  /**
   MAIN: from any reachable state with the gate free, a caller of `steer` or `followUp` that nobody interrupts is
   accepted exactly when the session runs and admits the kind: its input is then the last of its queue, accepted and
   announced once. Otherwise it is refused, and nothing has changed.
   */
  lemma OfferAloneIff(
    seed: seq<nat>, acts: seq<Act>, s: State, c: nat, kind: Kind, body: nat, loop: AgentLoop.Loop) returns (t: State)
    requires s == After(seed, acts, loop) && c !in s.callers && s.shared.gate.Free?
    ensures t == After(seed, (acts + [Call(c, Offering(kind, body, 0, Start))]) + Proceeds(c, 7), loop)
    ensures c in t.callers && t.callers[c].Offering?
    ensures if Takes(s.shared.state, kind) then
              && t.callers[c].at.Accepted? && s.shared.state.active.value in s.fibers
              && Taken(s, t, kind, s.shared.state.active.value, body)
            else
              t.callers[c].at.Refused? && t.shared == s.shared && t.fibers == s.fibers
  {
    var k := Offering(kind, body, 0, Start);
    var called := acts + [Call(c, k)];
    assert called[..|called| - 1] == acts && called[|called| - 1] == Call(c, k);
    ActiveExists(seed, acts, s, loop);
    if Takes(s.shared.state, kind) { t := OfferTaken(s, c, k, loop); } else { t := OfferRefused(s, c, k, loop); }
    AloneIsSchedule(seed, called, c, 7, loop);
  }

  lemma ActiveExists(seed: seq<nat>, acts: seq<Act>, s: State, loop: AgentLoop.Loop)
    requires s == After(seed, acts, loop)
    ensures s.shared.state.active.Some? ==> s.shared.state.active.value in s.fibers
  {
    Always(seed, acts, loop);
  }

  // ------------------------------------------------- snapshots and waiting, by themselves

  /** MAIN: a snapshot nobody interrupts is taken exactly when the session is idle, and is its history. */
  lemma SnapshotAloneIff(s: State, c: nat, loop: AgentLoop.Loop) returns (t: State)
    requires c !in s.callers
    ensures t == Alone(s, c, Snapshotting(0, [], Before), 3, loop)
    ensures t.shared == s.shared && t.fibers == s.fibers && c in t.callers && t.callers[c].Snapshotting?
    ensures if s.shared.state.status.Idle? then t.callers[c].seen.Taken? && t.callers[c].history == s.shared.history
            else t.callers[c].seen.NotTaken?
  {
    var u0 := Step(s, Call(c, Snapshotting(0, [], Before)), loop);
    var u1 := Step(u0, Proceed(c), loop);
    Next(u0, c, 3, loop, u1);
    var u2 := Step(u1, Proceed(c), loop);
    Next(u1, c, 2, loop, u2);
    t := Step(u2, Proceed(c), loop);
    Next(u2, c, 1, loop, t);
  }

  /**
   MAIN: a wait nobody interrupts joins the submission when it is the live one, and otherwise reads what was settled
   exactly when that is the submission's own. A wait that has joined is answered by the counter once the submission
   has gone without completing.
   */
  lemma AwaitAloneIff(s: State, c: nat, a: nat, loop: AgentLoop.Loop) returns (t: State)
    requires c !in s.callers && a in s.fibers && s.fibers[a].admission.Receipted?
    ensures t == Alone(s, c, Awaiting(a, First), 2, loop)
    ensures t.shared == s.shared && t.fibers == s.fibers && c in t.callers && t.callers[c].Awaiting?
    ensures var settled, found := s.shared.settledFiber, t.callers[c].found;
            if s.shared.activeFiber == Some(a) then
              found == if s.fibers[a].pc.Exited? && !s.fibers[a].exit.completed then Landed(s.shared.progress)
                       else FoundLive
            else if settled.Some? && settled.value.sub == a then found == FoundSettled(settled.value.progress)
            else found == NotFound
  {
    var u0 := Step(s, Call(c, Awaiting(a, First)), loop);
    var u1 := Step(u0, Proceed(c), loop);
    Next(u0, c, 2, loop, u1);
    t := Step(u1, Proceed(c), loop);
    Next(u1, c, 1, loop, t);
  }

  // ------------------------------------------------------------- a closed session

  lemma FiberKeepsClosed(
    sh: Shared, a: nat, f: Fiber, outcome: Option<ToolBatch.Work>, verdict: AgentLoop.Verdict)
    requires sh.state.status.Closed?
    ensures DoAdvance(sh, a, f, outcome, verdict).shared.state.status.Closed?
  {
  }

  lemma StepKeepsClosed(s: State, act: Act, loop: AgentLoop.Loop)
    requires s.shared.state.status.Closed?
    ensures var t := Step(s, act, loop); t.shared.state.status.Closed? && t.fibers.Keys == s.fibers.Keys
  {
    match act {
      case Advance(a, ch) =>
        if a in s.fibers {
          FiberKeepsClosed(s.shared, a, s.fibers[a], OutcomeOf(s.fibers[a], ch),
                           AgentLoop.Decide(loop, Asked(s.fibers[a], ch)).verdict);
        }
      case _ =>
    }
  }

  lemma {:induction false} StaysClosed(
    seed: seq<nat>, acts: seq<Act>, more: seq<Act>, loop: AgentLoop.Loop, s: State, t: State)
    requires s == After(seed, acts, loop) && t == After(seed, acts + more, loop)
    requires s.shared.state.status.Closed?
    ensures t.shared.state.status.Closed? && t.fibers.Keys == s.fibers.Keys
    decreases |more|
  {
    if more == [] {
      assert acts + more == acts;
    } else {
      var most := more[..|more| - 1];
      var u := After(seed, acts + most, loop);
      StaysClosed(seed, acts, most, loop, s, u);
      AfterMore(seed, acts, more, loop);
      StepKeepsClosed(u, more[|more| - 1], loop);
    }
  }

  /** MAIN: a session that is closed stays closed whatever follows, and never admits another submission. */
  lemma ClosedForGood(seed: seq<nat>, acts: seq<Act>, more: seq<Act>, loop: AgentLoop.Loop, s: State, t: State)
    requires s == After(seed, acts, loop) && t == After(seed, (acts + [CloseSession]) + more, loop)
    ensures t.shared.state.status.Closed? && t.fibers.Keys == s.fibers.Keys
  {
    var closed := acts + [CloseSession];
    assert closed[..|acts|] == acts;
    StaysClosed(seed, closed, more, loop, Step(s, CloseSession, loop), t);
  }

  // --------------------------------------------------------------- an interruption

  predicate Leaving(pc: PC) {
    pc.InRelease? || pc.Exited?
  }

  /** The history has grown, and submission `a` has added nothing to it. */
  predicate WithoutMore(h: seq<Entry>, g: seq<Entry>, a: nat) {
    h <= g && forall i | |h| <= i < |g| :: SubOf(g[i]) != a
  }

  lemma LeavingFiberRests(
    sh: Shared, a: nat, f: Fiber, outcome: Option<ToolBatch.Work>, verdict: AgentLoop.Verdict)
    requires Leaving(f.pc)
    ensures var r := DoAdvance(sh, a, f, outcome, verdict);
            && Leaving(r.fiber.pc) && r.fiber.exit.completed == f.exit.completed && r.fiber.admission == f.admission
            && r.shared.history == sh.history
  {
  }

  lemma FiberAddsItsOwn(sh: Shared, b: nat, f: Fiber, outcome: Option<ToolBatch.Work>, verdict: AgentLoop.Verdict)
    ensures var r := DoAdvance(sh, b, f, outcome, verdict);
            r.shared.history == sh.history
            || (exists e :: r.shared.history == sh.history + [e] && SubOf(e) == b)
  {
    match f.pc {
      case InSubmission(q) =>
        if q.Commit? && f.input.next.Some? {
          var e := DoCommit(sh, b, f).shared.history[|sh.history|];
          assert DoCommit(sh, b, f).shared.history == sh.history + [e] && SubOf(e) == b;
        }
      case InSteering(late, q) =>
        if q.SteerCommit? && f.input.batch != [] { assert SubOf(Applied(b, Steering, f.input.batch[0])) == b; }
      case InRun(q) =>
        if q.CommitTurn? && f.run.work.Some? {
          assert SubOf(TurnDone(b, f.runs, f.run.turn, f.run.context, f.run.work.value)) == b;
        }
      case _ =>
    }
  }

  predicate Installed(f: Fiber) {
    f.admission.Installed? || f.admission.Receipted?
  }

  /** Submission `a` is on its way out, not completed, having added nothing since `h`. */
  predicate Gone(s: State, a: nat, h: seq<Entry>) {
    && a in s.fibers && Leaving(s.fibers[a].pc) && !s.fibers[a].exit.completed && Installed(s.fibers[a])
    && a <= s.shared.state.count && WithoutMore(h, s.shared.history, a)
  }

  lemma AdvanceKeepsGone(s: State, a: nat, h: seq<Entry>, b: nat, r: Stepped)
    requires Gone(s, a, h) && b in s.fibers && s.shared.state.count <= r.shared.state.count
    requires a == b ==> Leaving(r.fiber.pc) && !r.fiber.exit.completed && Installed(r.fiber)
    requires a == b ==> r.shared.history == s.shared.history
    requires r.shared.history == s.shared.history
             || (exists e :: r.shared.history == s.shared.history + [e] && SubOf(e) == b)
    ensures Gone(Committed(s, b, r), a, h)
  {
  }

  lemma CountStays(sh: Shared, b: nat, f: Fiber, outcome: Option<ToolBatch.Work>, verdict: AgentLoop.Verdict)
    ensures DoAdvance(sh, b, f, outcome, verdict).shared.state.count == sh.state.count
  {
  }

  lemma AdvancedKeepsGone(s: State, a: nat, h: seq<Entry>, b: nat, ch: Choice, loop: AgentLoop.Loop)
    requires Gone(s, a, h) && b in s.fibers
    ensures Gone(Step(s, Advance(b, ch), loop), a, h)
  {
    var f, outcome := s.fibers[b], OutcomeOf(s.fibers[b], ch);
    var verdict := AgentLoop.Decide(loop, Asked(f, ch)).verdict;
    FiberAddsItsOwn(s.shared, b, f, outcome, verdict);
    CountStays(s.shared, b, f, outcome, verdict);
    if a == b { LeavingFiberRests(s.shared, a, f, outcome, verdict); }
    AdvanceKeepsGone(s, a, h, b, DoAdvance(s.shared, b, f, outcome, verdict));
  }

  lemma ProceedKeepsGone(s: State, a: nat, h: seq<Entry>, c: nat, k: Caller)
    requires Gone(s, a, h)
    ensures Gone(DoProceed(s, c, k), a, h)
  {
  }

  lemma StepKeepsGone(s: State, a: nat, h: seq<Entry>, act: Act, loop: AgentLoop.Loop)
    requires Gone(s, a, h)
    ensures Gone(Step(s, act, loop), a, h)
  {
    match act {
      case Advance(b, ch) => if b in s.fibers { AdvancedKeepsGone(s, a, h, b, ch, loop); }
      case Proceed(c) => if c in s.callers { ProceedKeepsGone(s, a, h, c, s.callers[c]); }
      case _ =>
    }
  }

  lemma {:induction false} StaysGone(
    seed: seq<nat>, acts: seq<Act>, more: seq<Act>, loop: AgentLoop.Loop, a: nat, h: seq<Entry>, s: State, t: State)
    requires s == After(seed, acts, loop) && t == After(seed, acts + more, loop) && Gone(s, a, h)
    ensures Gone(t, a, h)
    decreases |more|
  {
    if more == [] {
      assert acts + more == acts;
    } else {
      var most := more[..|more| - 1];
      var u := After(seed, acts + most, loop);
      StaysGone(seed, acts, most, loop, a, h, s, u);
      AfterMore(seed, acts, more, loop);
      StepKeepsGone(u, a, h, more[|more| - 1], loop);
    }
  }

  /** In its body, with its fibre installed. */
  predicate Interruptible(f: Fiber) {
    Installed(f) && !f.pc.Unborn? && !Leaving(f.pc)
  }

  /**
   MAIN: an installed submission that is interrupted anywhere in its body -- or fails, or dies -- gives back the gate,
   never completes, and adds nothing more to history, whatever happens afterwards.
   */
  lemma InterruptedAddsNothing(
    seed: seq<nat>, acts: seq<Act>, more: seq<Act>, loop: AgentLoop.Loop, a: nat, s: State, t: State)
    requires s == After(seed, acts, loop) && t == After(seed, (acts + [Abort(a)]) + more, loop)
    requires a in s.fibers && Interruptible(s.fibers[a])
    ensures Step(s, Abort(a), loop).shared.gate != BySub(a)
    ensures a in t.fibers && Leaving(t.fibers[a].pc) && !t.fibers[a].exit.completed
    ensures WithoutMore(s.shared.history, t.shared.history, a)
  {
    var aborted := acts + [Abort(a)];
    assert aborted[..|acts|] == acts;
    var u := Step(s, Abort(a), loop);
    NotYetCompleted(seed, acts, s, loop, a);
    StaysGone(seed, aborted, more, loop, a, s.shared.history, u, t);
  }

  lemma NotYetCompleted(seed: seq<nat>, acts: seq<Act>, s: State, loop: AgentLoop.Loop, a: nat)
    requires s == After(seed, acts, loop) && a in s.fibers && !Leaving(s.fibers[a].pc)
    ensures !s.fibers[a].exit.completed && a <= s.shared.state.count
  {
    Always(seed, acts, loop);
    AlwaysFiber(seed, acts, loop, a);
  }
}
