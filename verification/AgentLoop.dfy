/**
 Loop policies (src/AgentLoop.ts): a policy is a decision function built together with a
 description of it as data. The main results say that the description, flattened as it is,
 determines the decision, its reason and which policies were asked -- and where it does not.
 */
module AgentLoop {
  import opened Base

  datatype Exhaustion = Turns | ToolCalls | Duration | Tokens | Cost

  datatype Decision =
    | Continue
    | Stop(reason: Option<string>, exhaustion: Option<Exhaustion>)
    | Final(reason: Option<string>, exhaustion: Option<Exhaustion>)

  /**
   What a policy reads of the turn that just completed. `outstanding` counts its harness-executed calls, and
   `context` stands for all that only hand-written policies read: the response, a budget, a service.
   */
  datatype Turn = Turn(
    turnIndex: nat, toolCallsTotal: nat, elapsedMillis: real, outstanding: nat, outputReported: bool, context: nat)

  /** The `AgentExhaustedError` of `failOnExhaustion`, or a hand-written policy's own. */
  datatype Error = Exhausted(exhaustion: Exhaustion, reason: Option<string>) | Own(code: nat)

  datatype Verdict = Decided(decision: Decision) | Raised(error: Error)

  /** `and` is `Conj`, `or` is `Disj`. */
  datatype Mode = Conj | Disj

  /** `Custom` is a policy written with `make`: any decision, on any grounds. */
  datatype Loop =
    | Custom(name: string, decide: Turn -> Verdict)
    | UntilIdle
    | MaxTurns(max: nat)
    | MaxToolCalls(max: nat)
    | MaxDuration(millis: real)
    | WithFinalTurn(inner: Loop)
    | WithFinalAnswer(inner: Loop)
    | FailOnExhaustion(inner: Loop)
    | WithOutputStop(inner: Loop)
    | Combined(mode: Mode, first: Loop, rest: seq<Loop>)

  /** `DNamed` is all that is said of a policy written by hand. */
  datatype Description =
    | DNamed(name: string)
    | DUntilIdle
    | DMaxTurns(max: nat)
    | DMaxToolCalls(max: nat)
    | DMaxDuration(millis: real)
    | DFinalTurn(inner: Description)
    | DCombined(mode: Mode, loops: seq<Description>)
    | DCustom(name: string, inner: Description)

  /** A verdict, with the leaf policies consulted to reach it, in order. */
  datatype Answer = Answer(verdict: Verdict, asked: seq<Description>)

  // ------------------------------------------------------------------ decisions

  function Rank(d: Decision): nat {
    match d case Continue => 0 case Final(_, _) => 1 case Stop(_, _) => 2
  }

  /** The fold stops consulting: a `Stop` under `and`, a `Continue` under `or`, a failure under either. */
  predicate Halts(mode: Mode, v: Verdict) {
    v.Raised? || (if mode.Conj? then v.decision.Stop? else v.decision.Continue?)
  }

  predicate Beats(mode: Mode, next: Verdict, acc: Verdict)
    requires next.Decided? && acc.Decided?
  {
    if mode.Conj? then Rank(next.decision) > Rank(acc.decision) else Rank(next.decision) < Rank(acc.decision)
  }

  function Join(mode: Mode, acc: Answer, next: Answer): Answer
    requires acc.verdict.Decided?
  {
    var verdict := if next.verdict.Raised? || Beats(mode, next.verdict, acc.verdict) then next.verdict else acc.verdict;
    Answer(verdict, acc.asked + next.asked)
  }

  function MaxTurnsDecision(max: nat, t: Turn): Decision {
    if t.turnIndex >= max then Stop(Some("max turns"), Some(Turns)) else Continue
  }

  function MaxToolCallsDecision(max: nat, t: Turn): Decision {
    if t.toolCallsTotal >= max then Stop(Some("max tool calls"), Some(ToolCalls)) else Continue
  }

  function MaxDurationDecision(millis: real, t: Turn): Decision {
    if t.elapsedMillis >= millis then Stop(Some("max duration"), Some(Duration)) else Continue
  }

  function IdleDecision(t: Turn): Decision {
    if t.outstanding > 0 then Continue else Stop(None, None)
  }

  /** `withFinalTurn`: every cut-short stop becomes one final turn. */
  function FinalTurnOf(v: Verdict, t: Turn): Verdict {
    if v.Decided? && v.decision.Stop? && t.outstanding > 0
    then Decided(Final(v.decision.reason, v.decision.exhaustion)) else v
  }

  predicate CanAnswerAfter(e: Exhaustion) {
    e == Turns || e == ToolCalls
  }

  /** `withFinalAnswer`: only where another model call does not contradict the bound. */
  function FinalAnswerOf(v: Verdict, t: Turn): Verdict {
    if v.Decided? && v.decision.Stop? && v.decision.exhaustion.Some? && CanAnswerAfter(v.decision.exhaustion.value)
       && t.outstanding > 0
    then Decided(Final(v.decision.reason, v.decision.exhaustion)) else v
  }

  function FailureOf(v: Verdict): Verdict {
    if v.Decided? && v.decision.Stop? && v.decision.exhaustion.Some?
    then Raised(Exhausted(v.decision.exhaustion.value, v.decision.reason)) else v
  }

  const OUTPUT_STOP := Stop(Some("output reported"), None)

  /** `withOutputStop` (src/Agent.ts:472-491): once the answer is committed, stop, whatever the inner policy decided. */
  function OutputStopOf(v: Verdict, t: Turn): Verdict {
    if v.Decided? && t.outputReported then Decided(OUTPUT_STOP) else v
  }

  function Decide(l: Loop, t: Turn): Answer
    decreases l, 0
  {
    match l
    case Custom(name, decide) => Answer(decide(t), [DNamed(name)])
    case UntilIdle => Answer(Decided(IdleDecision(t)), [DUntilIdle])
    case MaxTurns(max) => Answer(Decided(MaxTurnsDecision(max, t)), [DMaxTurns(max)])
    case MaxToolCalls(max) => Answer(Decided(MaxToolCallsDecision(max, t)), [DMaxToolCalls(max)])
    case MaxDuration(millis) => Answer(Decided(MaxDurationDecision(millis, t)), [DMaxDuration(millis)])
    case WithFinalTurn(inner) => var a := Decide(inner, t); Answer(FinalTurnOf(a.verdict, t), a.asked)
    case WithFinalAnswer(inner) => var a := Decide(inner, t); Answer(FinalAnswerOf(a.verdict, t), a.asked)
    case FailOnExhaustion(inner) => var a := Decide(inner, t); Answer(FailureOf(a.verdict), a.asked)
    case WithOutputStop(inner) => var a := Decide(inner, t); Answer(OutputStopOf(a.verdict, t), a.asked)
    case Combined(mode, first, rest) => Fold(mode, Decide(first, t), rest, t)
  }

  function Fold(mode: Mode, acc: Answer, rest: seq<Loop>, t: Turn): Answer
    decreases rest, 1
  {
    if rest == [] || Halts(mode, acc.verdict) then acc
    else Fold(mode, Join(mode, acc, Decide(rest[0], t)), rest[1..], t)
  }

  // --------------------------------------------------------------- descriptions

  const FAIL_ON_EXHAUSTION := "failOnExhaustion"
  const OUTPUT_REPORTED := "Agent.outputReported"

  function Describe(l: Loop): Description
    decreases l, 0
  {
    match l
    case Custom(name, _) => DNamed(name)
    case UntilIdle => DUntilIdle
    case MaxTurns(max) => DMaxTurns(max)
    case MaxToolCalls(max) => DMaxToolCalls(max)
    case MaxDuration(millis) => DMaxDuration(millis)
    case WithFinalTurn(inner) => DFinalTurn(Describe(inner))
    case WithFinalAnswer(inner) => DFinalTurn(Describe(inner))
    case FailOnExhaustion(inner) => DCustom(FAIL_ON_EXHAUSTION, Describe(inner))
    case WithOutputStop(inner) => DCustom(OUTPUT_REPORTED, Describe(inner))
    case Combined(mode, first, rest) => DCombined(mode, Spliced(mode, Describe(first)) + DescribeAll(mode, rest))
  }

  function DescribeAll(mode: Mode, ls: seq<Loop>): seq<Description>
    decreases ls, 1
  {
    if ls == [] then [] else Spliced(mode, Describe(ls[0])) + DescribeAll(mode, ls[1..])
  }

  /** `flatten`: a nested combination of the same kind is spliced into its parent. */
  function Spliced(mode: Mode, d: Description): seq<Description> {
    if d.DCombined? && d.mode == mode then d.loops else [d]
  }

  /** A reader of descriptions, which knows nothing of the policies that produced them: a bare name bounds nothing. */
  function Interpret(d: Description, t: Turn): Answer
    decreases d, 0
  {
    match d
    case DNamed(_) => Answer(Decided(Continue), [d])
    case DUntilIdle => Answer(Decided(IdleDecision(t)), [d])
    case DMaxTurns(max) => Answer(Decided(MaxTurnsDecision(max, t)), [d])
    case DMaxToolCalls(max) => Answer(Decided(MaxToolCallsDecision(max, t)), [d])
    case DMaxDuration(millis) => Answer(Decided(MaxDurationDecision(millis, t)), [d])
    case DFinalTurn(inner) => var a := Interpret(inner, t); Answer(FinalTurnOf(a.verdict, t), a.asked)
    case DCustom(name, inner) =>
      var a := Interpret(inner, t);
      Answer(if name == OUTPUT_REPORTED then OutputStopOf(a.verdict, t) else FailureOf(a.verdict), a.asked)
    case DCombined(mode, loops) =>
      if loops == [] then Answer(Decided(Continue), [])
      else InterpretFold(mode, Interpret(loops[0], t), loops[1..], t)
  }

  function InterpretFold(mode: Mode, acc: Answer, rest: seq<Description>, t: Turn): Answer
    decreases rest, 1
  {
    if rest == [] || Halts(mode, acc.verdict) then acc
    else InterpretFold(mode, Join(mode, acc, Interpret(rest[0], t)), rest[1..], t)
  }

  // ------------------------------------------- a description has its loop's meaning

  /** Joining past a whole fold is folding past the join: what makes splicing sound. */
  lemma {:induction false} JoinFold(mode: Mode, acc: Answer, x: Answer, ds: seq<Description>, t: Turn)
    requires !Halts(mode, acc.verdict)
    ensures Join(mode, acc, InterpretFold(mode, x, ds, t)) == InterpretFold(mode, Join(mode, acc, x), ds, t)
    decreases |ds|
  {
    if ds != [] && !Halts(mode, x.verdict) {
      var y := Interpret(ds[0], t);
      JoinFold(mode, acc, Join(mode, x, y), ds[1..], t);
      assert Join(mode, acc, Join(mode, x, y)) == Join(mode, Join(mode, acc, x), y) by {
        assert acc.asked + (x.asked + y.asked) == (acc.asked + x.asked) + y.asked;
      }
    }
  }

  lemma {:induction false} FoldConcat(mode: Mode, acc: Answer, xs: seq<Description>, ys: seq<Description>, t: Turn)
    ensures InterpretFold(mode, acc, xs + ys, t) == InterpretFold(mode, InterpretFold(mode, acc, xs, t), ys, t)
    decreases |xs|
  {
    if xs == [] {
      assert xs + ys == ys;
    } else if !Halts(mode, acc.verdict) {
      assert (xs + ys)[0] == xs[0] && (xs + ys)[1..] == xs[1..] + ys;
      FoldConcat(mode, Join(mode, acc, Interpret(xs[0], t)), xs[1..], ys, t);
    }
  }

  /** A spliced child folds as the child itself would have joined. */
  lemma {:induction false} SplicedChild(mode: Mode, acc: Answer, d: Description, t: Turn)
    requires !Halts(mode, acc.verdict)
    requires d.DCombined? ==> d.loops != []
    ensures InterpretFold(mode, acc, Spliced(mode, d), t) == Join(mode, acc, Interpret(d, t))
  {
    if d.DCombined? && d.mode == mode {
      JoinFold(mode, acc, Interpret(d.loops[0], t), d.loops[1..], t);
    } else {
      assert Spliced(mode, d) == [d];
      assert InterpretFold(mode, Join(mode, acc, Interpret(d, t)), [d][1..], t) == Join(mode, acc, Interpret(d, t));
    }
  }

  /** And a spliced first child starts the fold as the child itself would have. */
  lemma SplicedFirst(mode: Mode, d: Description, more: seq<Description>, t: Turn)
    requires d.DCombined? ==> d.loops != []
    ensures Interpret(DCombined(mode, Spliced(mode, d) + more), t) == InterpretFold(mode, Interpret(d, t), more, t)
  {
    var head := Spliced(mode, d);
    var all := head + more;
    assert all[0] == head[0] && all[1..] == head[1..] + more;
    FoldConcat(mode, Interpret(head[0], t), head[1..], more, t);
  }

  lemma {:induction false} DescribeNonEmpty(l: Loop)
    ensures Describe(l).DCombined? ==> Describe(l).loops != []
  {
    match l {
      case Combined(mode, first, rest) => DescribeNonEmpty(first);
      case _ =>
    }
  }

  /** The inner policy stops a still-working model for a reason `withFinalAnswer` will not answer after. */
  predicate Declined(inner: Loop, t: Turn) {
    var v := Decide(inner, t).verdict;
    && t.outstanding > 0 && v.Decided? && v.decision.Stop?
    && (v.decision.exhaustion.None? || !CanAnswerAfter(v.decision.exhaustion.value))
  }

  /** The two final-turn policies are described alike, and decide alike exactly when nothing was declined. */
  lemma FinalTurnsAgreeIff(inner: Loop, t: Turn)
    ensures Describe(WithFinalTurn(inner)) == Describe(WithFinalAnswer(inner))
    ensures Decide(WithFinalTurn(inner), t) == Decide(WithFinalAnswer(inner), t) <==> !Declined(inner, t)
  {
  }

  /** Of the policies consulted on this turn, none is written by hand, and no final answer is declined. */
  predicate Legible(l: Loop, t: Turn)
    decreases l, 0
  {
    match l
    case Custom(_, _) => false
    case WithFinalTurn(inner) => Legible(inner, t)
    case WithFinalAnswer(inner) => Legible(inner, t) && !Declined(inner, t)
    case FailOnExhaustion(inner) => Legible(inner, t)
    case WithOutputStop(inner) => Legible(inner, t)
    case Combined(mode, first, rest) => Legible(first, t) && LegibleFold(mode, Decide(first, t), rest, t)
    case _ => true
  }

  predicate LegibleFold(mode: Mode, acc: Answer, rest: seq<Loop>, t: Turn)
    decreases rest, 1
  {
    || rest == [] || Halts(mode, acc.verdict)
    || (Legible(rest[0], t) && LegibleFold(mode, Join(mode, acc, Decide(rest[0], t)), rest[1..], t))
  }

  /**
   MAIN: reading the flattened description decides as the loop does -- same decision, same reason, same
   exhaustion, and the same policies consulted in the same order -- for every loop, on every turn on which
   no policy it consults is written by hand and none declines a final answer.
   */
  lemma {:induction false} DescriptionDecides(l: Loop, t: Turn)
    requires Legible(l, t)
    ensures Interpret(Describe(l), t) == Decide(l, t)
    decreases l, 0
  {
    match l {
      case WithFinalTurn(inner) => DescriptionDecides(inner, t);
      case WithFinalAnswer(inner) =>
        DescriptionDecides(inner, t);
        FinalTurnsAgreeIff(inner, t);
      case FailOnExhaustion(inner) => DescriptionDecides(inner, t);
      case WithOutputStop(inner) =>
        DescriptionDecides(inner, t);
        assert OUTPUT_REPORTED != FAIL_ON_EXHAUSTION;
      case Combined(mode, first, rest) =>
        DescriptionDecides(first, t);
        DescribeNonEmpty(first);
        SplicedFirst(mode, Describe(first), DescribeAll(mode, rest), t);
        DescriptionFolds(mode, Decide(first, t), rest, t);
      case _ =>
    }
  }

  lemma {:induction false} DescriptionFolds(mode: Mode, acc: Answer, rest: seq<Loop>, t: Turn)
    requires LegibleFold(mode, acc, rest, t)
    ensures InterpretFold(mode, acc, DescribeAll(mode, rest), t) == Fold(mode, acc, rest, t)
    decreases rest, 1
  {
    if rest != [] && !Halts(mode, acc.verdict) {
      DescriptionDecides(rest[0], t);
      DescribeNonEmpty(rest[0]);
      FoldConcat(mode, acc, Spliced(mode, Describe(rest[0])), DescribeAll(mode, rest[1..]), t);
      SplicedChild(mode, acc, Describe(rest[0]), t);
      DescriptionFolds(mode, Join(mode, acc, Decide(rest[0], t)), rest[1..], t);
    }
  }

  /**
   Made of the library's own policies, and none of them by `withFinalAnswer`, whose description is `withFinalTurn`'s.
   */
  predicate Plain(l: Loop)
    decreases l
  {
    match l
    case Custom(_, _) => false
    case WithFinalTurn(inner) => Plain(inner)
    case WithFinalAnswer(_) => false
    case FailOnExhaustion(inner) => Plain(inner)
    case WithOutputStop(inner) => Plain(inner)
    case Combined(_, first, rest) => Plain(first) && forall i | 0 <= i < |rest| :: Plain(rest[i])
    case _ => true
  }

  lemma {:induction false} PlainIsLegible(l: Loop, t: Turn)
    requires Plain(l)
    ensures Legible(l, t)
    decreases l, 0
  {
    match l {
      case WithFinalTurn(inner) => PlainIsLegible(inner, t);
      case FailOnExhaustion(inner) => PlainIsLegible(inner, t);
      case WithOutputStop(inner) => PlainIsLegible(inner, t);
      case Combined(mode, first, rest) =>
        PlainIsLegible(first, t);
        PlainFolds(mode, Decide(first, t), rest, t);
      case _ =>
    }
  }

  lemma {:induction false} PlainFolds(mode: Mode, acc: Answer, rest: seq<Loop>, t: Turn)
    requires forall i | 0 <= i < |rest| :: Plain(rest[i])
    ensures LegibleFold(mode, acc, rest, t)
    decreases rest, 1
  {
    if rest != [] && !Halts(mode, acc.verdict) {
      PlainIsLegible(rest[0], t);
      PlainFolds(mode, Join(mode, acc, Decide(rest[0], t)), rest[1..], t);
    }
  }

  /**
   MAIN: so a loop of the library's own policies without `withFinalAnswer` is what its description says, on every turn.
   */
  lemma PlainDecides(l: Loop, t: Turn)
    requires Plain(l)
    ensures Interpret(Describe(l), t) == Decide(l, t)
  {
    PlainIsLegible(l, t);
    DescriptionDecides(l, t);
  }

  // ------------------------------------------- where one description has two meanings

  /** Built from the bounds a final answer does not contradict, and nothing else. */
  predicate Answerable(l: Loop)
    decreases l
  {
    match l
    case UntilIdle => true
    case MaxTurns(_) => true
    case MaxToolCalls(_) => true
    case Combined(_, first, rest) => Answerable(first) && forall i | 0 <= i < |rest| :: Answerable(rest[i])
    case _ => false
  }

  predicate AnswerableVerdict(v: Verdict, t: Turn) {
    && v.Decided? && !v.decision.Final?
    && (v.decision.Stop? && t.outstanding > 0 ==>
          v.decision.exhaustion.Some? && CanAnswerAfter(v.decision.exhaustion.value))
  }

  lemma {:induction false} AnswerableDecides(l: Loop, t: Turn)
    requires Answerable(l)
    ensures AnswerableVerdict(Decide(l, t).verdict, t)
    decreases l, 0
  {
    match l {
      case Combined(mode, first, rest) =>
        AnswerableDecides(first, t);
        AnswerableFolds(mode, Decide(first, t), rest, t);
      case _ =>
    }
  }

  lemma {:induction false} AnswerableFolds(mode: Mode, acc: Answer, rest: seq<Loop>, t: Turn)
    requires AnswerableVerdict(acc.verdict, t)
    requires forall i | 0 <= i < |rest| :: Answerable(rest[i])
    ensures AnswerableVerdict(Fold(mode, acc, rest, t).verdict, t)
    decreases rest, 1
  {
    if rest != [] && !Halts(mode, acc.verdict) {
      AnswerableDecides(rest[0], t);
      AnswerableFolds(mode, Join(mode, acc, Decide(rest[0], t)), rest[1..], t);
    }
  }

  /** So without a duration bound the shared description is honest, on every turn. */
  lemma FinalTurnsAgree(inner: Loop, t: Turn)
    requires Answerable(inner)
    ensures Decide(WithFinalTurn(inner), t) == Decide(WithFinalAnswer(inner), t)
    ensures Interpret(Describe(WithFinalAnswer(inner)), t) == Decide(WithFinalAnswer(inner), t)
  {
    AnswerableDecides(inner, t);
    AnswerableIsPlain(inner);
    PlainIsLegible(inner, t);
    DescriptionDecides(WithFinalAnswer(inner), t);
  }

  lemma {:induction false} AnswerableIsPlain(l: Loop)
    requires Answerable(l)
    ensures Plain(l)
    decreases l
  {
    match l {
      case Combined(mode, first, rest) =>
        AnswerableIsPlain(first);
        forall i | 0 <= i < |rest| ensures Plain(rest[i]) { AnswerableIsPlain(rest[i]); }
      case _ =>
    }
  }

  /**
   MAIN: an agent with an output, under a final answer: its description reads as its loop decides exactly when
   the bounds inside decline nothing, or the turn gave the output -- then both stop for that.
   */
  lemma FinalAnswerReadsIff(inner: Loop, t: Turn)
    requires Legible(inner, t)
    ensures var l := WithFinalAnswer(inner); Interpret(Describe(l), t) == Decide(l, t) <==> !Declined(inner, t)
    ensures var l := WithOutputStop(WithFinalAnswer(inner));
            Interpret(Describe(l), t) == Decide(l, t) <==> !Declined(inner, t) || t.outputReported
  {
    DescriptionDecides(inner, t);
    FinalTurnsAgreeIff(inner, t);
    assert OUTPUT_REPORTED != FAIL_ON_EXHAUSTION;
  }

  /** With one, it is not: the description of `limits({ maxDuration: 1, onExhaustion: "final-answer" })` misreads it. */
  lemma DurationBreaksTheDescription()
    ensures var l := WithFinalAnswer(Combined(Conj, UntilIdle, [MaxDuration(1.0)]));
            var t := Turn(1, 1, 1.0, 1, false, 0);
            Interpret(Describe(l), t).verdict != Decide(l, t).verdict
  {
    var l := Combined(Conj, UntilIdle, [MaxDuration(1.0)]);
    var t := Turn(1, 1, 1.0, 1, false, 0);
    PlainDecides(l, t);
    assert Fold(Conj, Decide(UntilIdle, t), [MaxDuration(1.0)], t).verdict
        == Decided(Stop(Some("max duration"), Some(Duration)));
  }

  // ----------------------------------------------------------- stopping on the output

  /** The inner policy stops the run itself, for another reason, on the turn that gave the answer. */
  predicate Overruled(inner: Loop, t: Turn) {
    var v := Decide(inner, t).verdict;
    t.outputReported && v.Decided? && v.decision.Stop? && v.decision != OUTPUT_STOP
  }

  /**
   The run ends with the answer; and the policy is `and(inner, stop on output)`, as its documentation has it,
   exactly when the inner policy does not itself stop on that turn: then its reason is not the one kept.
   */
  lemma OutputStopIsAndIff(inner: Loop, t: Turn)
    requires Decide(inner, t).verdict.Decided?
    ensures var a := Decide(inner, t);
            var stop := Answer(Decided(if t.outputReported then OUTPUT_STOP else Continue), []);
            var both := if Halts(Conj, a.verdict) then a else Join(Conj, a, stop);
            var own := Decide(WithOutputStop(inner), t);
            && (t.outputReported ==> own.verdict == Decided(OUTPUT_STOP))
            && (own == both <==> !Overruled(inner, t))
  {
    var a := Decide(inner, t);
    assert a.asked + [] == a.asked;
  }

  /** The bound reached on the turn that reports the output: the reason kept is not the bound's, as `and`'s would be. */
  lemma OutputOverrulesTheBound()
    ensures var t := Turn(1, 1, 0.0, 1, true, 0);
            && Decide(WithOutputStop(MaxTurns(1)), t).verdict == Decided(OUTPUT_STOP)
            && Halts(Conj, Decide(MaxTurns(1), t).verdict)
            && Decide(MaxTurns(1), t).verdict == Decided(Stop(Some("max turns"), Some(Turns))) != Decided(OUTPUT_STOP)
  {
    assert "max turns"[0] == 'm' && "output reported"[0] == 'o';
  }

  // ------------------------------------------------------------- turn bounds

  /** `l` stops or fails, or asks for its final turn, by turn `n`: some conjunct bounds the turns. */
  predicate TurnLimited(l: Loop, n: nat)
    decreases l
  {
    match l
    case MaxTurns(max) => max <= n
    case WithFinalTurn(inner) => TurnLimited(inner, n)
    case WithFinalAnswer(inner) => TurnLimited(inner, n)
    case FailOnExhaustion(inner) => TurnLimited(inner, n)
    case WithOutputStop(inner) => TurnLimited(inner, n)
    case Combined(Conj, first, rest) => TurnLimited(first, n) || exists i | 0 <= i < |rest| :: TurnLimited(rest[i], n)
    case Combined(Disj, first, rest) => TurnLimited(first, n) && forall i | 0 <= i < |rest| :: TurnLimited(rest[i], n)
    case _ => false
  }

  predicate Ends(v: Verdict) {
    v.Raised? || !v.decision.Continue?
  }

  /** However it is written, the policy does not continue at or past turn `n`. */
  ghost predicate EndsBy(l: Loop, n: nat) {
    forall t: Turn | t.turnIndex >= n :: Ends(Decide(l, t).verdict)
  }

  /** However it is written, the policy never asks for a final turn. */
  ghost predicate NeverAsksFinal(l: Loop) {
    forall t: Turn :: NotFinal(Decide(l, t).verdict)
  }

  /** A bound in one conjunct, or in every disjunct, bounds a loop, whatever else is in it. */
  lemma TurnLimitBounds(l: Loop, n: nat)
    requires TurnLimited(l, n)
    ensures EndsBy(l, n)
  {
    forall t: Turn | t.turnIndex >= n ensures Ends(Decide(l, t).verdict) { TurnLimitEnds(l, n, t); }
  }

  lemma {:induction false} TurnLimitEnds(l: Loop, n: nat, t: Turn)
    requires TurnLimited(l, n) && t.turnIndex >= n
    ensures Ends(Decide(l, t).verdict)
    decreases l, 0
  {
    match l {
      case MaxTurns(_) =>
      case WithFinalTurn(inner) => TurnLimitEnds(inner, n, t);
      case WithFinalAnswer(inner) => TurnLimitEnds(inner, n, t);
      case FailOnExhaustion(inner) => TurnLimitEnds(inner, n, t);
      case WithOutputStop(inner) => TurnLimitEnds(inner, n, t);
      case Combined(mode, first, rest) =>
        if TurnLimited(first, n) { TurnLimitEnds(first, n, t); }
        TurnLimitFolds(mode, Decide(first, t), rest, n, t);
    }
  }

  lemma {:induction false} TurnLimitFolds(mode: Mode, acc: Answer, rest: seq<Loop>, n: nat, t: Turn)
    requires t.turnIndex >= n
    requires mode.Conj? ==> Ends(acc.verdict) || exists i | 0 <= i < |rest| :: TurnLimited(rest[i], n)
    requires mode.Disj? ==> Ends(acc.verdict) && forall i | 0 <= i < |rest| :: TurnLimited(rest[i], n)
    ensures Ends(Fold(mode, acc, rest, t).verdict)
    decreases rest, 1
  {
    if rest != [] && !Halts(mode, acc.verdict) {
      if TurnLimited(rest[0], n) { TurnLimitEnds(rest[0], n, t); }
      var next := Join(mode, acc, Decide(rest[0], t));
      if mode.Conj? && !Ends(next.verdict) {
        var i :| 0 <= i < |rest| && TurnLimited(rest[i], n);
        assert i != 0 && rest[1..][i - 1] == rest[i];
      }
      TurnLimitFolds(mode, next, rest[1..], n, t);
    }
  }

  datatype OnExhaustion = EndRun | FinalAnswer | Fail

  function Bounded(l: Loop, bound: Option<Loop>): Loop {
    if bound.None? then l else Combined(Conj, l, [bound.value])
  }

  /** `limits`: each bound given is one more conjunction around `untilIdle`. */
  function Limits(maxTurns: Option<nat>, maxToolCalls: Option<nat>, maxDuration: Option<real>, on: OnExhaustion): Loop {
    var turns := Bounded(UntilIdle, if maxTurns.Some? then Some(MaxTurns(maxTurns.value)) else None);
    var calls := Bounded(turns, if maxToolCalls.Some? then Some(MaxToolCalls(maxToolCalls.value)) else None);
    var loop := Bounded(calls, if maxDuration.Some? then Some(MaxDuration(maxDuration.value)) else None);
    match on
    case EndRun => loop
    case FinalAnswer => WithFinalAnswer(loop)
    case Fail => FailOnExhaustion(loop)
  }

  /** No policy in `l` asks for a final turn. */
  predicate NeverFinal(l: Loop)
    decreases l
  {
    match l
    case Custom(_, _) => false
    case WithFinalTurn(_) => false
    case WithFinalAnswer(_) => false
    case FailOnExhaustion(inner) => NeverFinal(inner)
    case WithOutputStop(inner) => NeverFinal(inner)
    case Combined(_, first, rest) => NeverFinal(first) && forall i | 0 <= i < |rest| :: NeverFinal(rest[i])
    case _ => true
  }

  predicate NotFinal(v: Verdict) {
    v.Decided? ==> !v.decision.Final?
  }

  lemma {:induction false} NeverFinalDecides(l: Loop, t: Turn)
    requires NeverFinal(l)
    ensures NotFinal(Decide(l, t).verdict)
    decreases l, 0
  {
    match l {
      case FailOnExhaustion(inner) => NeverFinalDecides(inner, t);
      case WithOutputStop(inner) => NeverFinalDecides(inner, t);
      case Combined(mode, first, rest) =>
        NeverFinalDecides(first, t);
        NeverFinalFolds(mode, Decide(first, t), rest, t);
      case _ =>
    }
  }

  lemma NeverFinalNeverAsks(l: Loop)
    requires NeverFinal(l)
    ensures NeverAsksFinal(l)
  {
    forall t: Turn ensures NotFinal(Decide(l, t).verdict) { NeverFinalDecides(l, t); }
  }

  lemma {:induction false} NeverFinalFolds(mode: Mode, acc: Answer, rest: seq<Loop>, t: Turn)
    requires NotFinal(acc.verdict) && forall i | 0 <= i < |rest| :: NeverFinal(rest[i])
    ensures NotFinal(Fold(mode, acc, rest, t).verdict)
    decreases rest, 1
  {
    if rest != [] && !Halts(mode, acc.verdict) {
      NeverFinalDecides(rest[0], t);
      NeverFinalFolds(mode, Join(mode, acc, Decide(rest[0], t)), rest[1..], t);
    }
  }

  lemma LimitsAreTurnLimited(n: nat, maxToolCalls: Option<nat>, maxDuration: Option<real>, on: OnExhaustion)
    ensures TurnLimited(Limits(Some(n), maxToolCalls, maxDuration, on), n)
    ensures !on.FinalAnswer? ==> NeverFinal(Limits(Some(n), maxToolCalls, maxDuration, on))
  {
    var turns := Combined(Conj, UntilIdle, [MaxTurns(n)]);
    assert TurnLimited(turns, n) by { assert TurnLimited(turns.rest[0], n); }
    BoundedNeverFinal(UntilIdle, Some(MaxTurns(n)));
    var callBound := if maxToolCalls.Some? then Some(MaxToolCalls(maxToolCalls.value)) else None;
    BoundedNeverFinal(turns, callBound);
    var durationBound := if maxDuration.Some? then Some(MaxDuration(maxDuration.value)) else None;
    BoundedNeverFinal(Bounded(turns, callBound), durationBound);
  }

  lemma BoundedNeverFinal(l: Loop, bound: Option<Loop>)
    requires NeverFinal(l) && (bound.Some? ==> NeverFinal(bound.value))
    ensures NeverFinal(Bounded(l, bound))
  {
  }
}
