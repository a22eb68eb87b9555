/**
 What the model is given for a call, and what is announced of it, read off the call's fate directly: which chunk of
 the handler's stream is its result, which refusal answers which refusing stage, and in which order it is all told.
 */
module ToolResult {
  import opened Base
  import opened Picking
  import opened ToolCall
  import opened ToolBatch
  import Permission

  // ------------------------------------------------------------------ which chunk

  /** The chunk at `k` is the result: the last that is not preliminary, or the last of all if every one is. */
  predicate Chosen(stream: seq<Chunk>, k: nat) {
    && k < |stream|
    && if !stream[k].preliminary then forall j | k < j < |stream| :: stream[j].preliminary
       else k == |stream| - 1 && forall j | 0 <= j < |stream| :: stream[j].preliminary
  }

  function IsFinal(stream: seq<Chunk>): nat -> bool {
    (k: nat) => k < |stream| && !stream[k].preliminary
  }

  function IsPreliminary(stream: seq<Chunk>): nat -> bool {
    (k: nat) => k < |stream| && stream[k].preliminary
  }

  /** The chunks that are not preliminary, by their places. */
  lemma {:induction false} FinalsAt(stream: seq<Chunk>) returns (ks: seq<nat>)
    ensures Picked(ks, |stream|, IsFinal(stream))
    ensures Finals(stream) == At(stream, ks)
    decreases |stream|
  {
    if stream == [] {
      ks := [];
    } else {
      var n := |stream| - 1;
      var most := stream[..n];
      var before := FinalsAt(most);
      PickedSame(before, n, IsFinal(most), IsFinal(stream));
      ks := if !stream[n].preliminary then before + [n] else before;
      PickedSnoc(before, n, IsFinal(stream), ks);
      AtSnoc(stream, before, !stream[n].preliminary, ks);
    }
  }

  lemma ChosenIsFinal(stream: seq<Chunk>, k: nat)
    requires Chosen(stream, k)
    ensures FinalOf(stream) == Some(stream[k])
  {
    var ks := FinalsAt(stream);
    if stream[k].preliminary {
      assert ks == [];
    } else {
      assert k in ks;
      assert ks[|ks| - 1] == k;
    }
  }

  lemma {:induction false} SomeIsChosen(stream: seq<Chunk>) returns (k: nat)
    requires stream != []
    ensures Chosen(stream, k)
    decreases |stream|
  {
    k := |stream| - 1;
    if stream[k].preliminary && k > 0 {
      var most := stream[..k];
      var j := SomeIsChosen(most);
      if !most[j].preliminary { k := j; }
    }
  }

  // ------------------------------------------------------------- what a fate deserves

  /** The stages let the call through, or its parameters do not decode and it is the handler's to refuse. */
  predicate LetThrough(fate: Fate) {
    || fate.deciding.Undecodable?
    || (fate.deciding.Judged? && Permitted(fate.deciding.needsApproval, fate.deciding.policy, fate.reply))
  }

  /** Someone is asked: the tool wants approval or the policy asks, and the policy does not deny. */
  predicate Questioned(d: Deciding) {
    d.Judged? && !d.policy.Deny? && (d.needsApproval || d.policy.Ask?)
  }

  /** The stream's result is this value, reported as this. */
  ghost predicate Yields(stream: seq<Chunk>, value: nat, isFailure: bool) {
    exists k: nat :: Chosen(stream, k) && stream[k].value == value && stream[k].isFailure == isFailure
  }

  /** What the model may be given for a call of a tool that is there. */
  ghost predicate Deserves(fate: Fate, policies: Policies, p: Payload) {
    match p
    case Result(value, isFailure) =>
      LetThrough(fate) && fate.end.Finished? && Yields(fate.stream, value, isFailure)
    case Refusal(PermissionDenied) => fate.deciding.Judged? && fate.deciding.policy.Deny? && policies.denialsReturn
    case Refusal(ApprovalRequired) => Questioned(fate.deciding) && fate.reply.Declined? && policies.denialsReturn
    case Refusal(HandlerFailed) => LetThrough(fate) && fate.end == Failed(false) && policies.failuresReturn
    case Refusal(_) => false
  }

  lemma AuthorizedAs(deciding: Deciding, reply: Reply)
    ensures Authorize(deciding, true, reply).Allowed? <==>
              deciding.Judged? && Permitted(deciding.needsApproval, deciding.policy, reply)
    ensures Authorize(deciding, true, reply).Denied? <==> deciding.Judged? && deciding.policy.Deny?
    ensures Authorize(deciding, true, reply).Refused? <==> Questioned(deciding) && reply.Declined?
    ensures Authorize(deciding, true, reply).InvalidParameters? <==> deciding.Undecodable?
    ensures IsAsked(deciding) <==> Questioned(deciding)
  {
    if deciding.Judged? { FloorHolds(deciding.needsApproval, deciding.policy); }
  }

  /** What a handler that was reached comes to. */
  ghost predicate HandlerGives(fate: Fate, policies: Policies, p: Payload) {
    match p
    case Result(value, isFailure) =>
      fate.end.Finished? && Yields(fate.stream, value, isFailure)
    case Refusal(HandlerFailed) => fate.end == Failed(false) && policies.failuresReturn
    case Refusal(_) => false
  }

  lemma HandleSettlesIff(call: Call, fate: Fate, before: seq<Event>, policies: Policies, p: Payload)
    ensures Handle(call, fate, before, policies).outcome == Settled(Part(call.id, call.name, p)) <==>
              HandlerGives(fate, policies, p)
  {
    if fate.end.Finished? {
      if fate.stream == [] {
        FinalExists(fate.stream);
      } else {
        var k := SomeIsChosen(fate.stream);
        ChosenIsFinal(fate.stream, k);
        forall j: nat | Chosen(fate.stream, j) ensures FinalOf(fate.stream) == Some(fate.stream[j]) {
          ChosenIsFinal(fate.stream, j);
        }
      }
    }
  }

  /**
   MAIN: a call is answered with exactly what its fate deserves. A handler that finishes gives the value and the
   failure flag of the last chunk that was not preliminary, or of the last of all when every one was; a denial, a
   declined question and a returned failure are each answered by their own refusal; and nothing else is answered.
   */
  lemma SettlesIff(tool: Option<Tool>, call: Call, fate: Fate, policies: Policies, p: Payload)
    ensures ExecuteOne(tool, call, fate, policies).outcome == Settled(Part(call.id, call.name, p)) <==>
              tool.Some? && Deserves(fate, policies, p)
  {
    AuthorizedAs(fate.deciding, fate.reply);
    if tool.Some? {
      HandleSettlesIff(call, fate, [Started(call.id)] + Questions(call.id, fate.deciding, fate.reply), policies, p);
    }
  }

  /** MAIN: the result by its place in the stream, for every call that is let through and whose handler finishes. */
  lemma CommitsTheChosen(tool: Option<Tool>, call: Call, fate: Fate, policies: Policies, k: nat)
    requires tool.Some? && LetThrough(fate) && fate.end.Finished? && Chosen(fate.stream, k)
    ensures var r := ExecuteOne(tool, call, fate, policies);
            && r.outcome == Settled(Part(call.id, call.name, Result(fate.stream[k].value, fate.stream[k].isFailure)))
            && r.events != []
            && r.events[|r.events| - 1] == if fate.stream[k].isFailure then FailedCall(call.id, true)
                                           else Succeeded(call.id)
  {
    AuthorizedAs(fate.deciding, fate.reply);
    ChosenIsFinal(fate.stream, k);
  }

  // ------------------------------------------------------------- what is announced

  /** The questions put about a call, and the answer it got, as they are announced. */
  predicate AsAsked(id: string, fate: Fate, es: seq<Event>) {
    if !Questioned(fate.deciding) then es == []
    else match fate.reply
         case Granted => es == [Asked(id), Answered(id, true)]
         case Declined => es == [Asked(id), Answered(id, false)]
         case AskingDied(answered) => es == [Asked(id)] + (if answered then [Answered(id, true)] else [])
         case AskingCut(answered) => es == [Asked(id)] + (if answered then [Answered(id, true)] else [])
  }

  /** These events report the chunks at these places. */
  predicate ReportsAt(id: string, stream: seq<Chunk>, ks: seq<nat>, es: seq<Event>) {
    |es| == |ks| && Below(ks, |stream|) && forall i | 0 <= i < |ks| :: es[i] == Progress(id, stream[ks[i]].value)
  }

  /** The preliminary chunks, each reported in its turn. */
  ghost predicate AsReported(id: string, stream: seq<Chunk>, es: seq<Event>) {
    exists ks: seq<nat> :: Picked(ks, |stream|, IsPreliminary(stream)) && ReportsAt(id, stream, ks, es)
  }

  lemma ReportsSnoc(id: string, stream: seq<Chunk>, ks: seq<nat>, es: seq<Event>, kept: bool, next: seq<nat>)
    requires stream != [] && ReportsAt(id, stream[..|stream| - 1], ks, es)
    requires next == if kept then ks + [|stream| - 1] else ks
    ensures ReportsAt(id, stream, next, es + (if kept then [Progress(id, stream[|stream| - 1].value)] else []))
  {
  }

  lemma {:induction false} ReportedAt(id: string, stream: seq<Chunk>) returns (ks: seq<nat>)
    ensures Picked(ks, |stream|, IsPreliminary(stream)) && ReportsAt(id, stream, ks, ProgressOf(id, stream))
    decreases |stream|
  {
    if stream == [] {
      ks := [];
    } else {
      var n := |stream| - 1;
      var most, kept := stream[..n], stream[n].preliminary;
      var before := ReportedAt(id, most);
      PickedSame(before, n, IsPreliminary(most), IsPreliminary(stream));
      ks := if kept then before + [n] else before;
      PickedSnoc(before, n, IsPreliminary(stream), ks);
      ReportsSnoc(id, stream, before, ProgressOf(id, most), kept, ks);
    }
  }

  /** How a call that was let through is closed, if it is. */
  function Closing(call: Call, fate: Fate, policies: Policies, k: nat): seq<Event>
    requires fate.end.Finished? && fate.stream != [] ==> k < |fate.stream|
  {
    match fate.end
    case Cut => [Interrupted(call.id)]
    case Died => [FailedCall(call.id, false)]
    case Failed(engineLimit) => [FailedCall(call.id, !engineLimit && policies.failuresReturn)]
    case Finished =>
      if fate.stream == [] then []
      else if fate.stream[k].isFailure then [FailedCall(call.id, true)] else [Succeeded(call.id)]
  }

  /**
   MAIN: a call that is let through is announced in this order: its start, what was asked and answered, each
   preliminary chunk as it came, and how it ended.
   */
  lemma ToldInOrder(call: Call, tool: Tool, fate: Fate, policies: Policies, k: nat)
    returns (asked: seq<Event>, reports: seq<Event>)
    requires LetThrough(fate) && (fate.stream != [] ==> Chosen(fate.stream, k))
    ensures AsAsked(call.id, fate, asked) && AsReported(call.id, fate.stream, reports)
    ensures ExecuteOne(Some(tool), call, fate, policies).events
         == [Started(call.id)] + asked + reports + Closing(call, fate, policies, k)
  {
    AuthorizedAs(fate.deciding, fate.reply);
    asked, reports := Questions(call.id, fate.deciding, fate.reply), ProgressOf(call.id, fate.stream);
    var ks := ReportedAt(call.id, fate.stream);
    if fate.stream != [] { ChosenIsFinal(fate.stream, k); } else { FinalExists(fate.stream); }
    var said := [Started(call.id)] + asked + reports;
    assert said + [] == said;
  }

  /** How a call that is not let through is closed, if it is: no report is made, for nothing ran. */
  function Refusing(call: Call, fate: Fate, policies: Policies): seq<Event> {
    match fate.deciding
    case DecidingCut => [Interrupted(call.id)]
    case Judged(_, Deny(_)) => [FailedCall(call.id, policies.denialsReturn)]
    case Judged(_, _) =>
      (match fate.reply
       case Declined => [FailedCall(call.id, policies.denialsReturn)]
       case AskingCut(_) => [Interrupted(call.id)]
       case _ => [])
    case _ => []
  }

  lemma RefusedInOrder(call: Call, tool: Tool, fate: Fate, policies: Policies) returns (asked: seq<Event>)
    requires !LetThrough(fate)
    ensures AsAsked(call.id, fate, asked)
    ensures ExecuteOne(Some(tool), call, fate, policies).events
         == [Started(call.id)] + asked + Refusing(call, fate, policies)
  {
    AuthorizedAs(fate.deciding, fate.reply);
    if fate.deciding.Judged? { FloorHolds(fate.deciding.needsApproval, fate.deciding.policy); }
    asked := Questions(call.id, fate.deciding, fate.reply);
    var said := [Started(call.id)] + asked;
    assert said + [] == said;
  }

  // ------------------------------------------------------------------- a turn's answers

  function IsOurs(response: seq<Call>): nat -> bool {
    (k: nat) => k < |response| && !response[k].providerExecuted
  }

  /** A turn's calls are those the provider has not executed, in the order of the response. */
  lemma {:induction false} OutstandingAt(response: seq<Call>) returns (ks: seq<nat>)
    ensures Picked(ks, |response|, IsOurs(response)) && Outstanding(response) == At(response, ks)
  {
    if response == [] {
      ks := [];
    } else {
      var rest := OutstandingAt(response[1..]);
      ks := (if !response[0].providerExecuted then [0] else []) + Shifted(rest);
      PickedCons(rest, |response| - 1, IsOurs(response[1..]), IsOurs(response), ks);
      AtCons(response, rest, !response[0].providerExecuted, ks);
    }
  }

  /** The tool is the agent's, and on a final turn one of the harness's own. */
  predicate Offered(b: Batch, name: string) {
    name in b.offer.toolkit && (b.offer.withheld ==> name in b.offer.own)
  }

  predicate Solitary(b: Batch, call: Call) {
    Offered(b, call.name) && b.offer.toolkit[call.name].alone
  }

  lemma SolitaryIff(b: Batch, call: Call)
    ensures Solitary(b, call) <==> MustBeAlone(b, call)
    ensures Offered(b, call.name) <==> ToolOf(b, call).Some?
  {
  }

  /** A call of an offered tool that must be alone is not. */
  predicate Crowded(b: Batch, calls: seq<Call>) {
    |calls| > 1 && exists i | 0 <= i < |calls| :: Solitary(b, calls[i])
  }

  lemma CrowdedIff(b: Batch, calls: seq<Call>)
    ensures Crowded(b, calls) <==> AloneBroken(b, calls)
  {
    forall i | 0 <= i < |calls| ensures Solitary(b, calls[i]) <==> MustBeAlone(b, calls[i]) {
      SolitaryIff(b, calls[i]);
    }
  }

  /** What the turn may answer call `i` of its calls with. */
  ghost predicate Answers(b: Batch, calls: seq<Call>, i: nat, p: Payload)
    requires i < |calls|
  {
    var call := calls[i];
    if Crowded(b, calls) then
      p == Refusal(if Solitary(b, call) then NotAlone else BatchRejected)
    else if !b.offer.withheld && b.offer.exposed.Some? && call.name !in b.offer.exposed.value then
      p == Refusal(NotExposed)
    else
      Offered(b, call.name) && call.id in b.fates && Deserves(b.fates[call.id], b.policies, p)
  }

  ghost predicate Answerable(b: Batch, calls: seq<Call>, i: nat)
    requires i < |calls|
  {
    exists p :: Answers(b, calls, i, p)
  }

  lemma AnswersIff(b: Batch, calls: seq<Call>, i: nat, p: Payload)
    requires i < |calls|
    ensures RanAt(b, AloneBroken(b, calls), calls[i]).outcome == Settled(Part(calls[i].id, calls[i].name, p)) <==>
              Answers(b, calls, i, p)
  {
    var call := calls[i];
    CrowdedIff(b, calls);
    SolitaryIff(b, call);
    if call.id in b.fates { SettlesIff(ToolOf(b, call), call, b.fates[call.id], b.policies, p); }
  }

  lemma SettledAsAnswered(b: Batch, calls: seq<Call>, i: nat)
    requires i < |calls|
    ensures RanAt(b, AloneBroken(b, calls), calls[i]).outcome.Settled? <==> Answerable(b, calls, i)
  {
    var o := RanAt(b, AloneBroken(b, calls), calls[i]).outcome;
    RanAnswers(b, AloneBroken(b, calls), calls[i]);
    if o.Settled? { AnswersIff(b, calls, i, o.part.payload); }
    forall p | Answers(b, calls, i, p) ensures o.Settled? { AnswersIff(b, calls, i, p); }
  }

  /**
   MAIN: a turn commits exactly when no id is named twice and every call has an answer; and then part i is call i's
   own answer: a refusal of the batch, of what was hidden, or what its fate deserves.
   */
  lemma TurnAnswersIff(b: Batch)
    ensures var calls := Outstanding(b.response);
            && (TurnOutcome(b).Some? <==> Distinct(calls) && forall i | 0 <= i < |calls| :: Answerable(b, calls, i))
            && (TurnOutcome(b).Some? ==>
                  var w := TurnOutcome(b).value;
                  var parts := w.parts;
                  && w == ToolBatch.Work(calls, parts, b.offer.withheld, b.offer.own) && |parts| == |calls|
                  && forall i, p | 0 <= i < |calls| ::
                       parts[i] == Part(calls[i].id, calls[i].name, p) <==> Answers(b, calls, i, p))
  {
    var calls := Outstanding(b.response);
    forall i | 0 <= i < |calls|
      ensures RansOf(b)[i].outcome.Settled? <==> Answerable(b, calls, i)
    {
      SettledAsAnswered(b, calls, i);
    }
    forall i, p | 0 <= i < |calls|
      ensures RansOf(b)[i].outcome == Settled(Part(calls[i].id, calls[i].name, p)) <==> Answers(b, calls, i, p)
    {
      AnswersIff(b, calls, i, p);
    }
  }
}
