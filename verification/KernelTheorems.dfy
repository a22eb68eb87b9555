/**
 What the session protocol guarantees in every state of every schedule: each lemma quantifies over all
 seeds, all loops and all sequences of actions, of any number of submissions and callers.
 */
module KernelTheorems {
  import opened Base
  import opened Kernel
  import opened KernelFiber
  import opened KernelInvariant
  import AgentLoop
  import ToolBatch

  lemma AlwaysFiber(seed: seq<nat>, acts: seq<Act>, loop: AgentLoop.Loop, a: nat)
    ensures var s := After(seed, acts, loop); a in s.fibers ==> FiberOk(s, a)
  {
    Always(seed, acts, loop);
  }

  // --------------------------------------------------------- ownership of input

  /** MAIN: at most one submission executes, and it is the active one. */
  lemma AtMostOneExecutes(seed: seq<nat>, acts: seq<Act>, loop: AgentLoop.Loop, a: nat, b: nat)
    ensures var s := After(seed, acts, loop);
            a in s.fibers && b in s.fibers && Live(s.fibers[a].pc) && Live(s.fibers[b].pc) ==>
              a == b && s.shared.state.active == Some(a) && !s.shared.state.status.Idle?
  {
    Always(seed, acts, loop);
  }

  lemma {:induction false} ItemsHold(h: seq<Entry>, kind: Kind, a: nat, i: nat)
    requires i < |h| && h[i].Applied? && h[i].kind == kind && h[i].sub == a
    ensures h[i].item in Items(h, kind, a)
    decreases |h|
  {
    if i < |h| - 1 {
      ItemsHold(h[..|h| - 1], kind, a, i);
      assert Items(h[..|h| - 1], kind, a) <= Items(h, kind, a);
    } else {
      assert ItemsOf(h[i], kind, a) == [h[i].item];
    }
  }

  /** MAIN: no submission ever applies an input accepted for another. */
  lemma AppliedByItsOwner(seed: seq<nat>, acts: seq<Act>, loop: AgentLoop.Loop, i: nat)
    ensures var h := After(seed, acts, loop).shared.history;
            i < |h| && h[i].Applied? ==> h[i].item.owner == h[i].sub
  {
    Always(seed, acts, loop);
    var s := After(seed, acts, loop);
    if i < |s.shared.history| && s.shared.history[i].Applied? {
      var e := s.shared.history[i];
      assert FiberOk(s, e.sub);
      ItemsHold(s.shared.history, e.kind, e.sub, i);
      AppliedOwned(s.shared, e.sub, s.fibers[e.sub], Mine(s, e.sub), e.kind, e.item);
    }
  }

  lemma AppliedOwned(sh: Shared, a: nat, f: Fiber, mine: bool, kind: Kind, item: Item)
    requires InputsOk(sh, a, f, mine) && item in Items(sh.history, kind, a)
    ensures item.owner == a
  {
    var p := if kind == Steering then SteerPipe(sh, a, f, mine) else FollowPipe(sh, a, f, mine);
    assert item in Flat(p);
  }

  /**
   MAIN: whenever the gate is free, every queued input was accepted for the active submission -- although
   a successor may claim between a release setting the session idle and its drains.
   */
  lemma QueuedForActive(seed: seq<nat>, acts: seq<Act>, loop: AgentLoop.Loop, item: Item)
    ensures var s := After(seed, acts, loop);
            s.shared.gate.Free? && (item in s.shared.steering || item in s.shared.followUps) ==>
              s.shared.state.active == Some(item.owner)
  {
    Always(seed, acts, loop);
    var s := After(seed, acts, loop);
    if s.shared.gate.Free? && s.shared.state.active.Some? {
      var a := s.shared.state.active.value;
      assert FiberOk(s, a) && Mine(s, a);
      if item in s.shared.steering { assert item in Flat(SteerPipe(s.shared, a, s.fibers[a], true)); }
      if item in s.shared.followUps { assert item in Flat(FollowPipe(s.shared, a, s.fibers[a], true)); }
    }
  }

  // ------------------------------------------------------- nothing accepted is lost

  /**
   MAIN: in every state, what was accepted for a submission is, in the order of acceptance, what it has
   applied, what its fibre holds, what is queued for it and what its release dropped.
   */
  lemma Conservation(seed: seq<nat>, acts: seq<Act>, loop: AgentLoop.Loop, a: nat)
    ensures var s := After(seed, acts, loop);
            a in s.fibers ==>
              && Flat(SteerPipe(s.shared, a, s.fibers[a], Mine(s, a))) == s.fibers[a].steers.accepted
              && Flat(FollowPipe(s.shared, a, s.fibers[a], Mine(s, a))) == s.fibers[a].follows.accepted
  {
    AlwaysFiber(seed, acts, loop, a);
  }

  /**
   MAIN: a submission that completes has applied exactly what was accepted, each input once and in order,
   and every one of them was followed by a turn of its own -- steering that arrived during the last turn,
   and follow-ups whose acceptance raced the ungated close, included.
   */
  lemma CompletedAppliedAll(seed: seq<nat>, acts: seq<Act>, loop: AgentLoop.Loop, a: nat)
    ensures var s := After(seed, acts, loop);
            a in s.fibers && s.fibers[a].pc.Exited? && s.fibers[a].exit.completed ==>
              && Items(s.shared.history, Steering, a) == s.fibers[a].steers.accepted
              && Items(s.shared.history, FollowUp, a) == s.fibers[a].follows.accepted
              && Answered(s.shared.history, a)
  {
    AlwaysFiber(seed, acts, loop, a);
    ExitedOwnsNothing(seed, acts, loop, a);
  }

  lemma ExitedOwnsNothing(seed: seq<nat>, acts: seq<Act>, loop: AgentLoop.Loop, a: nat)
    ensures var s := After(seed, acts, loop); a in s.fibers && s.fibers[a].pc.Exited? ==> !Mine(s, a)
  {
    Always(seed, acts, loop);
  }

  /** MAIN: an input is announced before it is applied, or even taken from its queue. */
  lemma AnnouncedFirst(seed: seq<nat>, acts: seq<Act>, loop: AgentLoop.Loop, a: nat)
    ensures var s := After(seed, acts, loop);
            a in s.fibers ==>
              var p, q := SteerPipe(s.shared, a, s.fibers[a], Mine(s, a)),
                  FollowPipe(s.shared, a, s.fibers[a], Mine(s, a));
              && p.applied + p.held <= s.fibers[a].steers.announced
              && q.applied + q.held <= s.fibers[a].follows.announced
  {
    Always(seed, acts, loop);
    var s := After(seed, acts, loop);
    if a in s.fibers {
      var f, mine := s.fibers[a], Mine(s, a);
      assert FiberOk(s, a);
      UnannouncedIsQueued(s, a, Steering);
      UnannouncedIsQueued(s, a, FollowUp);
      LastIsQueued(SteerPipe(s.shared, a, f, mine), f.steers.announced, Unannounced(s, Steering, a));
      LastIsQueued(FollowPipe(s.shared, a, f, mine), f.follows.announced, Unannounced(s, FollowUp, a));
    }
  }

  lemma UnannouncedIsQueued(s: State, a: nat, kind: Kind)
    requires Shape(s) && GateOk(s) && HolderOk(s) && a in s.fibers && EndOk(s.shared.history, a, s.fibers[a])
    ensures Unannounced(s, kind, a) != [] ==>
              Mine(s, a) && QueueOf(s.shared, kind) != [] && LogOf(s.fibers[a], kind).dropped == []
  {
  }

  lemma LastIsQueued(p: Pipe, announced: seq<Item>, rest: seq<Item>)
    requires Flat(p) == announced + rest && |rest| <= 1
    requires rest != [] ==> p.queued != [] && p.dropped == []
    ensures p.applied + p.held <= announced
  {
    var taken := p.applied + p.held;
    assert Flat(p) == taken + (p.queued + p.dropped);
    assert |taken| <= |announced|;
    forall i | 0 <= i < |taken| ensures taken[i] == announced[i] {
      assert Flat(p)[i] == taken[i];
    }
  }

  // ---------------------------------------------------------------- history

  lemma FiberExtends(sh: Shared, a: nat, f: Fiber, outcome: Option<ToolBatch.Work>, verdict: AgentLoop.Verdict)
    ensures sh.history <= DoAdvance(sh, a, f, outcome, verdict).shared.history
  {
  }

  /** One action of any fibre or caller only ever extends canonical history. */
  lemma StepExtends(s: State, act: Act, loop: AgentLoop.Loop)
    ensures s.shared.history <= Step(s, act, loop).shared.history
  {
    if act.Advance? {
      if act.sub in s.fibers {
        FiberExtends(s.shared, act.sub, s.fibers[act.sub], OutcomeOf(s.fibers[act.sub], act.choice),
                     AgentLoop.Decide(loop, Asked(s.fibers[act.sub], act.choice)).verdict);
      }
    } else {
      OthersLeaveHistory(s, act, loop);
    }
  }

  lemma OthersLeaveHistory(s: State, act: Act, loop: AgentLoop.Loop)
    requires !act.Advance?
    ensures Step(s, act, loop).shared.history == s.shared.history
  {
  }

  /** MAIN: history is append-only over every run, under any interruption or failure. */
  lemma {:induction false} AppendOnly(seed: seq<nat>, acts: seq<Act>, more: seq<Act>, loop: AgentLoop.Loop)
    ensures After(seed, acts, loop).shared.history <= After(seed, acts + more, loop).shared.history
    decreases |more|
  {
    if more == [] {
      assert acts + more == acts;
    } else {
      var most := more[..|more| - 1];
      AppendOnly(seed, acts, most, loop);
      AfterMore(seed, acts, more, loop);
      ExtendsFurther(After(seed, acts, loop).shared.history, After(seed, acts + most, loop), more[|more| - 1], loop);
    }
  }

  lemma ExtendsFurther(h: seq<Entry>, s: State, act: Act, loop: AgentLoop.Loop)
    requires h <= s.shared.history
    ensures h <= Step(s, act, loop).shared.history
  {
    StepExtends(s, act, loop);
  }

  /**
   MAIN: history is the seed and whole units. A committed turn carries one result for each call it made,
   matched by id and in call order, and its prompt was derived from exactly the history before it.
   */
  lemma TurnsAreWhole(seed: seq<nat>, acts: seq<Act>, loop: AgentLoop.Loop, i: nat)
    ensures var h := After(seed, acts, loop).shared.history;
            i < |h| && h[i].TurnDone? ==> h[i].context == i && ToolBatch.Matched(h[i].work)
  {
    Always(seed, acts, loop);
  }

  // --------------------------------------------------------------- snapshot

  /**
   MAIN: a snapshot that is taken is the session's history at a moment when no submission was active --
   whatever submissions started, or started and finished, between its reads.
   */
  lemma SnapshotIsCurrent(seed: seq<nat>, acts: seq<Act>, loop: AgentLoop.Loop, c: nat)
    ensures var s := After(seed, acts, loop);
            var t := Step(s, Proceed(c), loop);
            c in s.callers && s.callers[c].Snapshotting? && s.callers[c].seen.HistoryRead?
            && t.callers[c].seen.Taken? ==>
              && t.callers[c].history == s.shared.history
              && s.shared.state.active.None? && forall a | a in s.fibers :: !Live(s.fibers[a].pc)
  {
    Always(seed, acts, loop);
    var s := After(seed, acts, loop);
    if c in s.callers && s.callers[c].Snapshotting? && s.callers[c].seen.HistoryRead? { TakenIsCurrent(s, c, loop); }
  }

  lemma TakenIsCurrent(s: State, c: nat, loop: AgentLoop.Loop)
    requires Shape(s) && c in s.callers && SnapshotOk(s, s.callers[c])
    requires s.callers[c].Snapshotting? && s.callers[c].seen.HistoryRead?
    ensures var t := Step(s, Proceed(c), loop);
            t.callers[c].seen.Taken? ==>
              && t.callers[c].history == s.shared.history
              && s.shared.state.active.None? && forall a | a in s.fibers :: !Live(s.fibers[a].pc)
  {
  }

  // --------------------------------------------------------- awaiting a receipt

  /**
   MAIN: `awaitSubmission` on a returned receipt reports not-found only once a later submission has been
   settled, whatever lands between its two reads; and what it reports from the settled slot is that
   submission's own progress, short of its last committed turn at most.
   */
  lemma AwaitWindow(seed: seq<nat>, acts: seq<Act>, loop: AgentLoop.Loop, c: nat)
    ensures var s := After(seed, acts, loop);
            c in s.callers && s.callers[c].Awaiting? ==>
              var k := s.callers[c];
              && k.sub in s.fibers
              && (k.found.NotFound? ==> exists b :: b in s.fibers && k.sub < b && PastSettle(s.fibers[b].pc))
              && (k.found.FoundSettled? ==>
                    Reports(k.found.progress, Turns(s.shared.history, k.sub), k.sub, s.fibers[k.sub]))
  {
    Always(seed, acts, loop);
    var s := After(seed, acts, loop);
    if c in s.callers && s.callers[c].Awaiting? {
      assert AwaitOk(s, s.callers[c]);
      if s.callers[c].found.NotFound? {
        var b := s.shared.settledFiber.value.sub;
        assert b in s.fibers && s.callers[c].sub < b && PastSettle(s.fibers[b].pc);
      }
    }
  }

  // ------------------------------------------------------------- how many runs

  /** MAIN: a submission starts at most one run for its input and one for each input accepted. */
  lemma RunsBounded(seed: seq<nat>, acts: seq<Act>, loop: AgentLoop.Loop, a: nat)
    ensures var s := After(seed, acts, loop);
            a in s.fibers ==>
              s.fibers[a].runs <= 1 + |s.fibers[a].follows.accepted| + |s.fibers[a].steers.accepted|
  {
    AlwaysFiber(seed, acts, loop, a);
  }
}
