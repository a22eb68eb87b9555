/**
 What each loop policy decides (src/AgentLoop.ts:253-331, 343-415, 425-460, 509-642), stated over the turn it is
 asked about and over the decisions of the policies it is made of.
 */
module LoopDecisions {
  import opened AgentLoop
  import opened Base

  function Verdicts(l: Loop, t: Turn): Verdict {
    Decide(l, t).verdict
  }

  // -------------------------------------------------------------- the policies alone

  /** `untilIdle` goes on exactly while the model has called something, and gives no reason when it stops. */
  lemma UntilIdleIff(t: Turn)
    ensures Verdicts(UntilIdle, t) == Decided(Continue) <==> t.outstanding > 0
    ensures Verdicts(UntilIdle, t) == Decided(Stop(None, None)) <==> t.outstanding == 0
  {
  }

  /** Each ceiling stops exactly at or past its bound, and says which it was. */
  lemma CeilingsIff(n: nat, millis: real, t: Turn)
    ensures Verdicts(MaxTurns(n), t) == Decided(Stop(Some("max turns"), Some(Turns))) <==> n <= t.turnIndex
    ensures Verdicts(MaxTurns(n), t) == Decided(Continue) <==> t.turnIndex < n
    ensures Verdicts(MaxToolCalls(n), t) == Decided(Stop(Some("max tool calls"), Some(ToolCalls)))
            <==> n <= t.toolCallsTotal
    ensures Verdicts(MaxToolCalls(n), t) == Decided(Continue) <==> t.toolCallsTotal < n
    ensures Verdicts(MaxDuration(millis), t) == Decided(Stop(Some("max duration"), Some(Duration)))
            <==> millis <= t.elapsedMillis
    ensures Verdicts(MaxDuration(millis), t) == Decided(Continue) <==> t.elapsedMillis < millis
  {
  }

  /** One turn's notice for every stop of a working model, or for those alone that ran out of turns or tool calls. */
  lemma FinalTurnsIff(inner: Loop, t: Turn, reason: Option<string>, e: Option<Exhaustion>)
    ensures Verdicts(WithFinalTurn(inner), t) == Decided(Final(reason, e)) <==>
              Verdicts(inner, t) == Decided(Final(reason, e))
              || (Verdicts(inner, t) == Decided(Stop(reason, e)) && t.outstanding > 0)
    ensures Verdicts(WithFinalTurn(inner), t) == Decided(Stop(reason, e)) <==>
              Verdicts(inner, t) == Decided(Stop(reason, e)) && t.outstanding == 0
    ensures Verdicts(WithFinalAnswer(inner), t) == Decided(Final(reason, e)) <==>
              Verdicts(inner, t) == Decided(Final(reason, e))
              || (Verdicts(inner, t) == Decided(Stop(reason, e)) && t.outstanding > 0
                  && (e == Some(Turns) || e == Some(ToolCalls)))
    ensures Verdicts(WithFinalAnswer(inner), t) == Decided(Stop(reason, e)) <==>
              Verdicts(inner, t) == Decided(Stop(reason, e))
              && (t.outstanding == 0 || (e != Some(Turns) && e != Some(ToolCalls)))
    ensures Verdicts(WithFinalTurn(inner), t) == Decided(Continue) <==> Verdicts(inner, t) == Decided(Continue)
    ensures Verdicts(WithFinalAnswer(inner), t) == Decided(Continue) <==> Verdicts(inner, t) == Decided(Continue)
  {
  }

  /** `failOnExhaustion` fails exactly where its policy ran out or failed; it decides everything else as its policy. */
  lemma FailsIff(inner: Loop, t: Turn)
    ensures Verdicts(FailOnExhaustion(inner), t).Raised? <==>
              var v := Verdicts(inner, t);
              v.Raised? || (v.decision.Stop? && v.decision.exhaustion.Some?)
    ensures forall e: Exhaustion, reason: Option<string> | Verdicts(inner, t) == Decided(Stop(reason, Some(e))) ::
              Verdicts(FailOnExhaustion(inner), t) == Raised(Exhausted(e, reason))
    ensures Verdicts(FailOnExhaustion(inner), t).Decided? ==>
              Verdicts(FailOnExhaustion(inner), t) == Verdicts(inner, t)
  {
  }

  // ---------------------------------------------------------------- and, and or

  /** How much a decision stops: a stop most, a final turn next. */
  predicate Outranks(d: Decision, e: Decision) {
    (d.Stop? && !e.Stop?) || (d.Final? && e.Continue?)
  }

  /** Under `and`, `d` would be kept over `e`; under `or` it is the other way about. */
  predicate Over(mode: Mode, d: Decision, e: Decision) {
    if mode.Conj? then Outranks(d, e) else Outranks(e, d)
  }

  /** `vs[i]` is the first of the decisions that stop most, under `and`, or least, under `or`. */
  predicate FirstExtreme(mode: Mode, vs: seq<Decision>, i: nat) {
    && i < |vs|
    && (forall j | 0 <= j < |vs| :: !Over(mode, vs[j], vs[i]))
    && (forall j | 0 <= j < i :: Over(mode, vs[i], vs[j]))
  }

  predicate AllDecide(ls: seq<Loop>, t: Turn) {
    forall i | 0 <= i < |ls| :: Verdicts(ls[i], t).Decided?
  }

  function Decisions(ls: seq<Loop>, t: Turn): (ds: seq<Decision>)
    requires AllDecide(ls, t)
    ensures |ds| == |ls| && forall i | 0 <= i < |ds| :: ds[i] == Verdicts(ls[i], t).decision
  {
    seq(|ls|, i requires 0 <= i < |ls| => Verdicts(ls[i], t).decision)
  }

  lemma ExtremeCons(mode: Mode, kept: Decision, next: Decision, rest: seq<Decision>, i: nat)
    requires FirstExtreme(mode, [if Over(mode, next, kept) then next else kept] + rest, i)
    ensures FirstExtreme(mode, [kept, next] + rest, if i > 0 then i + 1 else if Over(mode, next, kept) then 1 else 0)
  {
    var short, all := [if Over(mode, next, kept) then next else kept] + rest, [kept, next] + rest;
    assert forall j | 1 <= j < |short| :: short[j] == all[j + 1];
    var at := if i > 0 then i + 1 else if Over(mode, next, kept) then 1 else 0;
    assert all[at] == short[i];
    forall j | 0 <= j < |all| ensures !Over(mode, all[j], all[at]) && (j < at ==> Over(mode, all[at], all[j])) {
      assert all[j] == if j == 0 then kept else if j == 1 then next else short[j - 1];
      assert !Over(mode, short[0], short[i]) && (i > 0 ==> Over(mode, short[i], short[0]));
      if j >= 2 { assert !Over(mode, short[j - 1], short[i]) && (j - 1 < i ==> Over(mode, short[i], short[j - 1])); }
    }
  }

  /** A stop, or under `or` a continue, is not improved on by what follows it. */
  lemma HaltedIsExtreme(mode: Mode, kept: Decision, rest: seq<Decision>)
    requires if mode.Conj? then kept.Stop? else kept.Continue?
    ensures FirstExtreme(mode, [kept] + rest, 0)
  {
  }

  lemma {:induction false} FoldIsExtreme(mode: Mode, acc: Answer, rest: seq<Loop>, t: Turn) returns (i: nat)
    requires acc.verdict.Decided? && AllDecide(rest, t)
    ensures FirstExtreme(mode, [acc.verdict.decision] + Decisions(rest, t), i)
    ensures Fold(mode, acc, rest, t).verdict == Decided(([acc.verdict.decision] + Decisions(rest, t))[i])
    decreases |rest|
  {
    i := 0;
    if rest != [] && Halts(mode, acc.verdict) {
      HaltedIsExtreme(mode, acc.verdict.decision, Decisions(rest, t));
    } else if rest != [] {
      var kept, next := acc.verdict.decision, Verdicts(rest[0], t).decision;
      JoinKeeps(mode, acc, Decide(rest[0], t));
      i := FoldIsExtreme(mode, Join(mode, acc, Decide(rest[0], t)), rest[1..], t);
      assert Decisions(rest, t) == [next] + Decisions(rest[1..], t);
      i := OneMore(mode, kept, next, Decisions(rest[1..], t), i);
    }
  }

  lemma JoinKeeps(mode: Mode, acc: Answer, next: Answer)
    requires acc.verdict.Decided? && next.verdict.Decided?
    ensures var kept, d := acc.verdict.decision, next.verdict.decision;
            Join(mode, acc, next).verdict == Decided(if Over(mode, d, kept) then d else kept)
  {
  }

  lemma OneMore(mode: Mode, kept: Decision, next: Decision, rest: seq<Decision>, k: nat) returns (i: nat)
    requires FirstExtreme(mode, [if Over(mode, next, kept) then next else kept] + rest, k)
    ensures FirstExtreme(mode, [kept] + ([next] + rest), i)
    ensures ([kept] + ([next] + rest))[i] == ([if Over(mode, next, kept) then next else kept] + rest)[k]
  {
    ExtremeCons(mode, kept, next, rest, k);
    i := if k > 0 then k + 1 else if Over(mode, next, kept) then 1 else 0;
    assert [kept, next] + rest == [kept] + ([next] + rest);
  }

  /**
   MAIN: `and` decides as the first of its policies that stop most, and `or` as the first that stop least, of all
   of them, whichever of them it asks -- when none of them fails.
   */
  lemma CombinedIsFirstExtreme(mode: Mode, first: Loop, rest: seq<Loop>, t: Turn) returns (i: nat)
    requires AllDecide([first] + rest, t)
    ensures FirstExtreme(mode, Decisions([first] + rest, t), i)
    ensures Verdicts(Combined(mode, first, rest), t) == Decided(Decisions([first] + rest, t)[i])
  {
    var all := [first] + rest;
    assert all[0] == first && forall k | 0 <= k < |rest| :: all[k + 1] == rest[k];
    assert Decisions(all, t) == [Verdicts(first, t).decision] + Decisions(rest, t);
    i := FoldIsExtreme(mode, Decide(first, t), rest, t);
  }

  /** The first to settle the matter, or to fail, before any other does. */
  predicate Settles(mode: Mode, all: seq<Loop>, k: nat, t: Turn) {
    && k < |all| && Halts(mode, Verdicts(all[k], t))
    && forall j | 0 <= j < k :: !Halts(mode, Verdicts(all[j], t))
  }

  lemma {:induction false} FoldSettles(mode: Mode, acc: Answer, rest: seq<Loop>, k: nat, t: Turn)
    requires !Halts(mode, acc.verdict) && Settles(mode, rest, k, t)
    ensures Fold(mode, acc, rest, t).verdict == Verdicts(rest[k], t)
    decreases |rest|
  {
    var next := Join(mode, acc, Decide(rest[0], t));
    if k == 0 {
      assert next.verdict == Verdicts(rest[0], t);
    } else {
      assert Settles(mode, rest[1..], k - 1, t) by {
        assert forall j | 0 <= j < |rest| - 1 :: rest[1..][j] == rest[j + 1];
      }
      FoldSettles(mode, next, rest[1..], k - 1, t);
    }
  }

  /** MAIN: a failure counts exactly when nothing before it has settled the matter; what settles it is decided. */
  lemma FirstSettlesIt(mode: Mode, first: Loop, rest: seq<Loop>, k: nat, t: Turn)
    requires Settles(mode, [first] + rest, k, t)
    ensures Verdicts(Combined(mode, first, rest), t) == Verdicts(([first] + rest)[k], t)
  {
    var all := [first] + rest;
    assert all[0] == first && forall j | 0 <= j < |rest| :: all[j + 1] == rest[j];
    assert Verdicts(all[0], t) == Decide(first, t).verdict;
    if k > 0 {
      assert !Halts(mode, Verdicts(all[0], t));
      assert Settles(mode, rest, k - 1, t) by { assert forall j | 0 <= j < k - 1 :: rest[j] == all[j + 1]; }
      FoldSettles(mode, Decide(first, t), rest, k - 1, t);
      assert rest[k - 1] == all[k];
    } else {
      assert Fold(mode, Decide(first, t), rest, t) == Decide(first, t);
    }
  }

  /** What some policies consult, each in turn. */
  function Consulted(ls: seq<Loop>, t: Turn): seq<Description> {
    if ls == [] then [] else Decide(ls[0], t).asked + Consulted(ls[1..], t)
  }

  /** The first `n` are asked: none before the last of them settles the matter, and it does unless they are all. */
  predicate AsksFirst(mode: Mode, all: seq<Loop>, n: nat, t: Turn) {
    && n <= |all| && (n < |all| ==> n > 0 && Halts(mode, Verdicts(all[n - 1], t)))
    && forall j | 0 <= j < n - 1 :: !Halts(mode, Verdicts(all[j], t))
  }

  lemma {:induction false} FoldAsks(mode: Mode, acc: Answer, rest: seq<Loop>, n: nat, t: Turn)
    requires !Halts(mode, acc.verdict) && AsksFirst(mode, rest, n, t)
    ensures Fold(mode, acc, rest, t).asked == acc.asked + Consulted(rest[..n], t)
    decreases |rest|
  {
    if rest == [] {
      assert acc.asked + [] == acc.asked;
    } else {
      var next := Join(mode, acc, Decide(rest[0], t));
      assert rest[..n][0] == rest[0] && rest[..n][1..] == rest[1..][..n - 1];
      if Halts(mode, Verdicts(rest[0], t)) {
        assert n == 1 && Consulted(rest[1..][..0], t) == [];
        assert Fold(mode, next, rest[1..], t) == next;
      } else {
        AsksRest(mode, rest, n, t);
        FoldAsks(mode, next, rest[1..], n - 1, t);
      }
      assert (acc.asked + Decide(rest[0], t).asked) + Consulted(rest[1..][..n - 1], t)
          == acc.asked + (Decide(rest[0], t).asked + Consulted(rest[1..][..n - 1], t));
    }
  }

  lemma AsksRest(mode: Mode, rest: seq<Loop>, n: nat, t: Turn)
    requires rest != [] && AsksFirst(mode, rest, n, t) && !Halts(mode, Verdicts(rest[0], t))
    ensures n > 0 && AsksFirst(mode, rest[1..], n - 1, t)
  {
    assert forall j | 0 <= j < |rest| - 1 :: rest[1..][j] == rest[j + 1];
  }

  /** MAIN: a combination consults its policies in order, up to the first that settles the matter, and no further. */
  lemma AsksInOrder(mode: Mode, first: Loop, rest: seq<Loop>, n: nat, t: Turn)
    requires n > 0 && AsksFirst(mode, [first] + rest, n, t)
    ensures Decide(Combined(mode, first, rest), t).asked == Consulted(([first] + rest)[..n], t)
  {
    var all, acc := [first] + rest, Decide(first, t);
    assert all[0] == first && all[1..] == rest && all[..n][0] == first && all[..n][1..] == rest[..n - 1];
    if Halts(mode, acc.verdict) {
      assert n == 1 && Consulted(rest[..0], t) == [] && acc.asked + [] == acc.asked;
    } else {
      AsksRest(mode, all, n, t);
      FoldAsks(mode, acc, rest, n - 1, t);
    }
  }

  /** A policy of the library's or of the program's own consults itself, and one around another what that one does. */
  lemma AsksItself(inner: Loop, name: string, decide: Turn -> Verdict, n: nat, millis: real, t: Turn)
    ensures Decide(Custom(name, decide), t) == Answer(decide(t), [DNamed(name)])
    ensures Decide(UntilIdle, t).asked == [DUntilIdle] && Decide(MaxTurns(n), t).asked == [DMaxTurns(n)]
    ensures Decide(MaxToolCalls(n), t).asked == [DMaxToolCalls(n)]
    ensures Decide(MaxDuration(millis), t).asked == [DMaxDuration(millis)]
    ensures Decide(WithFinalTurn(inner), t).asked == Decide(WithFinalAnswer(inner), t).asked == Decide(inner, t).asked
    ensures Decide(FailOnExhaustion(inner), t).asked == Decide(WithOutputStop(inner), t).asked == Decide(inner, t).asked
  {
  }

  // -------------------------------------------------------------------- and idling

  /** On a turn on which the model called nothing the policy stops, or fails: it neither goes on nor asks for more. */
  ghost predicate StopsIdle(l: Loop) {
    forall t: Turn | t.outstanding == 0 :: Verdicts(l, t).Raised? || Verdicts(l, t).decision.Stop?
  }

  lemma BoundedStopsIdle(l: Loop, bound: Option<Loop>)
    requires forall t: Turn | t.outstanding == 0 :: Verdicts(l, t) == Decided(Stop(None, None))
    ensures forall t: Turn | t.outstanding == 0 :: Verdicts(Bounded(l, bound), t) == Decided(Stop(None, None))
  {
    if bound.Some? {
      forall t: Turn | t.outstanding == 0 ensures Verdicts(Bounded(l, bound), t) == Decided(Stop(None, None)) {
        assert Fold(Conj, Decide(l, t), [bound.value], t) == Decide(l, t);
      }
    }
  }

  /** MAIN: under `untilIdle`, and under `limits` of any kind, a model that calls nothing has finished. */
  lemma LimitsStopIdle(
    maxTurns: Option<nat>, maxToolCalls: Option<nat>, maxDuration: Option<real>, on: OnExhaustion)
    ensures StopsIdle(UntilIdle)
    ensures StopsIdle(Limits(maxTurns, maxToolCalls, maxDuration, on))
  {
    forall t: Turn | t.outstanding == 0 ensures Verdicts(UntilIdle, t) == Decided(Stop(None, None)) { UntilIdleIff(t); }
    var turnBound := if maxTurns.Some? then Some(MaxTurns(maxTurns.value)) else None;
    var callBound := if maxToolCalls.Some? then Some(MaxToolCalls(maxToolCalls.value)) else None;
    var durationBound := if maxDuration.Some? then Some(MaxDuration(maxDuration.value)) else None;
    var turns := Bounded(UntilIdle, turnBound);
    var calls := Bounded(turns, callBound);
    BoundedStopsIdle(UntilIdle, turnBound);
    BoundedStopsIdle(turns, callBound);
    BoundedStopsIdle(calls, durationBound);
    var loop := Bounded(calls, durationBound);
    assert forall t: Turn | t.outstanding == 0 :: Verdicts(loop, t) == Decided(Stop(None, None));
  }

  /** The first ceiling a turn has reached, in the order turns, tool calls, time; with the reason it gives. */
  function Reached(maxTurns: Option<nat>, maxToolCalls: Option<nat>, maxDuration: Option<real>, t: Turn)
    : Option<(string, Exhaustion)>
  {
    if maxTurns.Some? && maxTurns.value <= t.turnIndex then Some(("max turns", Turns))
    else if maxToolCalls.Some? && maxToolCalls.value <= t.toolCallsTotal then Some(("max tool calls", ToolCalls))
    else if maxDuration.Some? && maxDuration.value <= t.elapsedMillis then Some(("max duration", Duration))
    else None
  }

  lemma BoundedDecides(l: Loop, bound: Option<Loop>, t: Turn)
    requires Verdicts(l, t).Decided? && (bound.Some? ==> Verdicts(bound.value, t).Decided?)
    requires !Verdicts(l, t).decision.Final? && (bound.Some? ==> !Verdicts(bound.value, t).decision.Final?)
    ensures Verdicts(Bounded(l, bound), t)
         == if Verdicts(l, t).decision.Stop? || bound.None? then Verdicts(l, t) else Verdicts(bound.value, t)
  {
    if bound.Some? {
      var joined := Join(Conj, Decide(l, t), Decide(bound.value, t));
      assert Decide(Bounded(l, bound), t) == Fold(Conj, Decide(l, t), [bound.value], t);
      if Verdicts(l, t).decision.Continue? {
        assert [bound.value][1..] == [] && Fold(Conj, joined, [], t) == joined;
        assert Fold(Conj, Decide(l, t), [bound.value], t) == joined;
      }
    }
  }

  lemma UnendedLimits(maxTurns: Option<nat>, maxToolCalls: Option<nat>, maxDuration: Option<real>, t: Turn)
    ensures var v, hit := Verdicts(Limits(maxTurns, maxToolCalls, maxDuration, EndRun), t),
                          Reached(maxTurns, maxToolCalls, maxDuration, t);
            v == if t.outstanding == 0 then Decided(Stop(None, None))
                 else if hit.None? then Decided(Continue) else Decided(Stop(Some(hit.value.0), Some(hit.value.1)))
  {
    var turns := if maxTurns.Some? then Some(MaxTurns(maxTurns.value)) else None;
    var calls := if maxToolCalls.Some? then Some(MaxToolCalls(maxToolCalls.value)) else None;
    var duration := if maxDuration.Some? then Some(MaxDuration(maxDuration.value)) else None;
    BoundedDecides(UntilIdle, turns, t);
    BoundedDecides(Bounded(UntilIdle, turns), calls, t);
    BoundedDecides(Bounded(Bounded(UntilIdle, turns), calls), duration, t);
  }

  /**
   MAIN: what `limits` decides, for every choice of bounds and every turn. An idle turn ends the run, without a reason;
   else the first bound reached does, as it is asked to: by ending it, by one final answer where another model call does
   not contradict the bound, or by failing it. With none reached the run goes on.
   */
  lemma LimitsDecide(
    maxTurns: Option<nat>, maxToolCalls: Option<nat>, maxDuration: Option<real>, on: OnExhaustion, t: Turn)
    ensures var v, hit := Verdicts(Limits(maxTurns, maxToolCalls, maxDuration, on), t),
                          Reached(maxTurns, maxToolCalls, maxDuration, t);
            v == if t.outstanding == 0 then Decided(Stop(None, None))
                 else match hit
                      case None => Decided(Continue)
                      case Some((reason, Duration)) =>
                        if on.Fail? then Raised(Exhausted(Duration, Some(reason)))
                        else Decided(Stop(Some(reason), Some(Duration)))
                      case Some((reason, e)) =>
                        if on.Fail? then Raised(Exhausted(e, Some(reason)))
                        else if on.FinalAnswer? then Decided(Final(Some(reason), Some(e)))
                        else Decided(Stop(Some(reason), Some(e)))
  {
    UnendedLimits(maxTurns, maxToolCalls, maxDuration, t);
  }
}
