/**
 One tool call (src/ToolExecution.ts): the permission stages, the handler's stream, and the events that
 announce them. What the parameters decode to, what the policy says, what a person answers and what the
 handler does are a call's fate, and arbitrary.
 */
module ToolCall {
  import opened Base
  import Permission

  datatype Call = Call(id: string, name: string, providerExecuted: bool)

  /** `alone` is the `Alone` annotation. */
  datatype Tool = Tool(alone: bool)

  datatype Policies = Policies(failuresReturn: bool, denialsReturn: bool)

  datatype Error = NotAlone | BatchRejected | NotExposed | PermissionDenied | ApprovalRequired | HandlerFailed

  datatype Payload = Result(value: nat, isFailure: bool) | Refusal(error: Error)
  datatype Part = Part(id: string, name: string, payload: Payload)

  // ------------------------------------------------------------------ a call's fate

  /** `decide` up to the policy's answer: undecodable parameters, an answer, a defect or an interruption. */
  datatype Deciding =
    | Undecodable
    | Judged(needsApproval: bool, policy: Permission.Decision)
    | DecidingDied
    | DecidingCut

  /** The answer to an `Ask`. A defect or interruption comes before the answer, or after it. */
  datatype Reply = Granted | Declined | AskingDied(answered: bool) | AskingCut(answered: bool)

  datatype Chunk = Chunk(preliminary: bool, isFailure: bool, value: nat)

  /** How the handler's stream ends; `engineLimit` is the harness's own progress budget. */
  datatype End = Finished | Failed(engineLimit: bool) | Died | Cut

  datatype Fate = Fate(deciding: Deciding, reply: Reply, stream: seq<Chunk>, end: End)

  // ------------------------------------------------------------------- what is seen

  datatype Event =
    | Started(id: string)
    | Asked(id: string)
    | Answered(id: string, granted: bool)
    | Progress(id: string, value: nat)
    | Succeeded(id: string)
    | FailedCall(id: string, returned: bool)
    | Interrupted(id: string)

  datatype Outcome = Settled(part: Part) | Unsettled

  /** One call's events, whether its handler was reached, and what came of it. */
  datatype Ran = Ran(events: seq<Event>, reached: bool, outcome: Outcome)

  predicate Terminal(e: Event) {
    e.Succeeded? || e.FailedCall? || e.Interrupted?
  }

  // --------------------------------------------------------------------- permission

  /** The tool's own requirement is at least an `Ask`, whatever the policy said. */
  function Floored(needsApproval: bool, policy: Permission.Decision): Permission.Decision {
    Permission.Combine(if needsApproval then Permission.Ask(None) else Permission.Allow, [policy])
  }

  datatype Authorization = InvalidParameters | Allowed | Denied | Refused | Unaskable | Broken(defect: bool)

  /** `authorize`; `askable` is whether there is anyone to ask, as a direct call always has. */
  function Authorize(deciding: Deciding, askable: bool, reply: Reply): Authorization {
    match deciding
    case Undecodable => InvalidParameters
    case DecidingDied => Broken(true)
    case DecidingCut => Broken(false)
    case Judged(needsApproval, policy) =>
      match Floored(needsApproval, policy)
      case Allow => Allowed
      case Deny(_) => Denied
      case Ask(_) =>
        if !askable then Unaskable
        else match reply
             case Granted => Allowed
             case Declined => Refused
             case AskingDied(_) => Broken(true)
             case AskingCut(_) => Broken(false)
  }

  predicate IsAsked(deciding: Deciding) {
    deciding.Judged? && Floored(deciding.needsApproval, deciding.policy).Ask?
  }

  function Questions(id: string, deciding: Deciding, reply: Reply): seq<Event> {
    if !IsAsked(deciding) then []
    else match reply
         case Granted => [Asked(id), Answered(id, true)]
         case Declined => [Asked(id), Answered(id, false)]
         case AskingDied(answered) => if answered then [Asked(id), Answered(id, true)] else [Asked(id)]
         case AskingCut(answered) => if answered then [Asked(id), Answered(id, true)] else [Asked(id)]
  }

  // -------------------------------------------------------------- the handler's stream

  /** The last result that is not preliminary, and failing that the last. */
  function FinalOf(stream: seq<Chunk>): Option<Chunk> {
    var finals := Finals(stream);
    if finals != [] then Some(finals[|finals| - 1]) else if stream != [] then Some(stream[|stream| - 1]) else None
  }

  function Finals(stream: seq<Chunk>): seq<Chunk>
    decreases |stream|
  {
    if stream == [] then []
    else Finals(stream[..|stream| - 1]) + (if stream[|stream| - 1].preliminary then [] else [stream[|stream| - 1]])
  }

  function ProgressOf(id: string, stream: seq<Chunk>): seq<Event>
    decreases |stream|
  {
    if stream == [] then []
    else
      var last := stream[|stream| - 1];
      ProgressOf(id, stream[..|stream| - 1]) + (if last.preliminary then [Progress(id, last.value)] else [])
  }

  /** The fold over the stream: progress as it arrives, then the final result, or the last. */
  method Consume(id: string, stream: seq<Chunk>) returns (events: seq<Event>, result: Option<Chunk>)
    ensures events == ProgressOf(id, stream) && result == FinalOf(stream)
  {
    var final: Option<Chunk>, last: Option<Chunk> := None, None;
    events := [];
    for i := 0 to |stream|
      invariant events == ProgressOf(id, stream[..i])
      invariant final == (var f := Finals(stream[..i]); if f == [] then None else Some(f[|f| - 1]))
      invariant last == if i == 0 then None else Some(stream[i - 1])
    {
      assert stream[..i + 1][..i] == stream[..i];
      if stream[i].preliminary {
        events := events + [Progress(id, stream[i].value)];
        last := Some(stream[i]);
      } else {
        final, last := Some(stream[i]), Some(stream[i]);
      }
    }
    assert stream[..|stream|] == stream;
    result := if final.Some? then final else last;
  }

  // --------------------------------------------------------------------- executeOne

  function Settle(call: Call, chunk: Chunk): Outcome {
    Settled(Part(call.id, call.name, Result(chunk.value, chunk.isFailure)))
  }

  /** A failure the model is told of, or that fails the run. */
  function Failure(call: Call, before: seq<Event>, reached: bool, error: Error, returned: bool): Ran {
    Ran(before + [FailedCall(call.id, returned)], reached,
        if returned then Settled(Part(call.id, call.name, Refusal(error))) else Unsettled)
  }

  function Handle(call: Call, fate: Fate, before: seq<Event>, policies: Policies): Ran {
    var events := before + ProgressOf(call.id, fate.stream);
    match fate.end
    case Cut => Ran(events + [Interrupted(call.id)], true, Unsettled)
    case Died => Failure(call, events, true, HandlerFailed, false)
    case Failed(engineLimit) => Failure(call, events, true, HandlerFailed, !engineLimit && policies.failuresReturn)
    case Finished =>
      match FinalOf(fate.stream)
      case None => Ran(events, true, Unsettled)
      case Some(chunk) =>
        var last := if chunk.isFailure then FailedCall(call.id, true) else Succeeded(call.id);
        Ran(events + [last], true, Settle(call, chunk))
  }

  function ExecuteOne(tool: Option<Tool>, call: Call, fate: Fate, policies: Policies): Ran {
    if tool.None? then Ran([Started(call.id)], false, Unsettled)
    else
      var before := [Started(call.id)] + Questions(call.id, fate.deciding, fate.reply);
      match Authorize(fate.deciding, true, fate.reply)
      case Broken(defect) => Ran(if defect then before else before + [Interrupted(call.id)], false, Unsettled)
      case Denied => Failure(call, before, false, PermissionDenied, policies.denialsReturn)
      case Refused => Failure(call, before, false, ApprovalRequired, policies.denialsReturn)
      case Unaskable => Failure(call, before, false, ApprovalRequired, policies.denialsReturn)
      case InvalidParameters => Handle(call, fate, before, policies)
      case Allowed => Handle(call, fate, before, policies)
  }

  // -------------------------------------------------------------------- the gate

  /** The floor cannot be lowered, a policy's denial stands with its reason, and only two yeses allow. */
  lemma FloorHolds(needsApproval: bool, policy: Permission.Decision)
    ensures needsApproval ==> Permission.Severity(Floored(needsApproval, policy)) >= 1
    ensures Permission.Severity(policy) <= Permission.Severity(Floored(needsApproval, policy))
    ensures policy.Deny? ==> Floored(needsApproval, policy) == policy
    ensures Floored(needsApproval, policy).Deny? ==> policy.Deny?
    ensures Floored(needsApproval, policy).Allow? <==> !needsApproval && policy.Allow?
  {
    Permission.CombineSeverity(if needsApproval then Permission.Ask(None) else Permission.Allow, [policy]);
    assert policy in [policy];
  }

  /** The stages let a decoded call through: no floor and an allow, or no denial and a granted question. */
  predicate Permitted(needsApproval: bool, policy: Permission.Decision, reply: Reply) {
    !policy.Deny? && ((!needsApproval && policy.Allow?) || reply.Granted?)
  }

  /** MAIN: the handler is reached exactly when the tool exists and the parameters do not decode or are permitted. */
  lemma ReachedIff(tool: Option<Tool>, call: Call, fate: Fate, policies: Policies)
    ensures ExecuteOne(tool, call, fate, policies).reached <==>
              tool.Some? && (fate.deciding.Undecodable?
                             || (fate.deciding.Judged?
                                 && Permitted(fate.deciding.needsApproval, fate.deciding.policy, fate.reply)))
  {
    if fate.deciding.Judged? { FloorHolds(fate.deciding.needsApproval, fate.deciding.policy); }
  }

  /** Whoever has nobody to ask is never let past a question. */
  lemma UnaskableIsRefused(deciding: Deciding, reply: Reply)
    ensures Authorize(deciding, false, reply).Allowed? <==>
              deciding.Judged? && !deciding.needsApproval && deciding.policy.Allow?
  {
    if deciding.Judged? { FloorHolds(deciding.needsApproval, deciding.policy); }
  }

  // ------------------------------------------------------------- terminal events

  function Terminals(events: seq<Event>): nat
    decreases |events|
  {
    if events == [] then 0
    else Terminals(events[..|events| - 1]) + (if Terminal(events[|events| - 1]) then 1 else 0)
  }

  lemma OneMore(events: seq<Event>, e: Event)
    ensures Terminals(events + [e]) == Terminals(events) + (if Terminal(e) then 1 else 0)
  {
    assert (events + [e])[..|events|] == events;
  }

  lemma {:induction false} NoneBefore(events: seq<Event>)
    requires forall i | 0 <= i < |events| :: !Terminal(events[i])
    ensures Terminals(events) == 0
    decreases |events|
  {
    if events != [] { NoneBefore(events[..|events| - 1]); }
  }

  lemma {:induction false} ProgressIsOngoing(id: string, stream: seq<Chunk>)
    ensures forall i | 0 <= i < |ProgressOf(id, stream)| :: ProgressOf(id, stream)[i].Progress?
    decreases |stream|
  {
    if stream != [] { ProgressIsOngoing(id, stream[..|stream| - 1]); }
  }

  /** The stages let it through to its handler. */
  predicate GoesAhead(fate: Fate) {
    var auth := Authorize(fate.deciding, true, fate.reply);
    auth.InvalidParameters? || auth.Allowed?
  }

  /** The three ways a started call ends in a defect that is not the handler's own. */
  predicate Silent(tool: Option<Tool>, fate: Fate) {
    || tool.None?
    || fate.deciding.DecidingDied?
    || (IsAsked(fate.deciding) && fate.reply.AskingDied?)
    || (GoesAhead(fate) && fate.end.Finished? && fate.stream == [])
  }

  /** Exactly one terminal event, and it is the last. */
  predicate Closed(events: seq<Event>) {
    events != [] && Terminals(events) == 1 && Terminal(events[|events| - 1])
  }

  lemma {:induction false} FinalExists(stream: seq<Chunk>)
    ensures FinalOf(stream).None? <==> stream == []
  {
    if stream == [] { assert Finals(stream) == []; }
  }

  /** What comes before a call's last event opens with its start and closes nothing. */
  predicate Ongoing(call: Call, events: seq<Event>) {
    events != [] && events[0] == Started(call.id) && forall i | 0 <= i < |events| :: !Terminal(events[i])
  }

  lemma EndsClosed(call: Call, events: seq<Event>, e: Event)
    requires Ongoing(call, events)
    ensures Terminals(events) == 0
    ensures Terminal(e) ==> Closed(events + [e]) && (events + [e])[0] == Started(call.id)
  {
    NoneBefore(events);
    OneMore(events, e);
  }

  /** The events open with the call's start; and the model has a result exactly when the last one says so. */
  predicate Agrees(call: Call, r: Ran) {
    && r.events != [] && r.events[0] == Started(call.id)
    && (r.outcome.Settled? <==>
          r.events[|r.events| - 1].Succeeded? || r.events[|r.events| - 1] == FailedCall(call.id, true))
  }

  lemma HandleCloses(call: Call, fate: Fate, before: seq<Event>, policies: Policies)
    requires Ongoing(call, before)
    ensures var r := Handle(call, fate, before, policies);
            && Agrees(call, r)
            && (if fate.end.Finished? && fate.stream == [] then Terminals(r.events) == 0 else Closed(r.events))
  {
    var events := before + ProgressOf(call.id, fate.stream);
    ProgressIsOngoing(call.id, fate.stream);
    FinalExists(fate.stream);
    assert Ongoing(call, events);
    EndsClosed(call, events, Interrupted(call.id));
    EndsClosed(call, events, Succeeded(call.id));
    EndsClosed(call, events, FailedCall(call.id, true));
    EndsClosed(call, events, FailedCall(call.id, false));
  }

  lemma StoppedCloses(call: Call, fate: Fate, policies: Policies, tool: Tool)
    requires !GoesAhead(fate)
    ensures var r := ExecuteOne(Some(tool), call, fate, policies);
            && Agrees(call, r)
            && (if Authorize(fate.deciding, true, fate.reply) == Broken(true) then Terminals(r.events) == 0
                else Closed(r.events))
  {
    var before := [Started(call.id)] + Questions(call.id, fate.deciding, fate.reply);
    assert Ongoing(call, before);
    EndsClosed(call, before, Interrupted(call.id));
    EndsClosed(call, before, FailedCall(call.id, policies.denialsReturn));
  }

  lemma GoneAheadCloses(call: Call, fate: Fate, policies: Policies, tool: Tool)
    requires GoesAhead(fate)
    ensures var r := ExecuteOne(Some(tool), call, fate, policies);
            && Agrees(call, r)
            && (if fate.end.Finished? && fate.stream == [] then Terminals(r.events) == 0 else Closed(r.events))
  {
    var before := [Started(call.id)] + Questions(call.id, fate.deciding, fate.reply);
    assert Ongoing(call, before);
    HandleCloses(call, fate, before, policies);
  }

  /**
   MAIN: a started call gets exactly one terminal event, its last, exactly when it does not end in one of
   the defects above; then it gets none. And history agrees with the events: the model is given a result
   for it exactly when the last event says that it succeeded, or failed in the model's sight.
   */
  lemma TerminalIff(tool: Option<Tool>, call: Call, fate: Fate, policies: Policies)
    ensures var r := ExecuteOne(tool, call, fate, policies);
            && Agrees(call, r)
            && (Closed(r.events) <==> !Silent(tool, fate)) && (Silent(tool, fate) ==> Terminals(r.events) == 0)
  {
    if tool.None? { NoneBefore([Started(call.id)]); }
    else if GoesAhead(fate) { GoneAheadCloses(call, fate, policies, tool.value); }
    else { StoppedCloses(call, fate, policies, tool.value); }
  }

  /** The handler dies, or meets a limit of the engine: not the model's to know of, under any failure policy. */
  predicate NotNegotiable(fate: Fate) {
    fate.end.Died? || fate.end == Failed(true)
  }

  lemma NeverReturned(tool: Option<Tool>, call: Call, fate: Fate, policies: Policies)
    requires NotNegotiable(fate)
    ensures var r := ExecuteOne(tool, call, fate, policies);
            r.reached ==> r.outcome.Unsettled? && r.events[|r.events| - 1] == FailedCall(call.id, false)
  {
  }

  /** The silent endings at concrete inputs: a stage that dies, a tool that is missing, a stream without a result. */
  lemma SilentEndings(call: Call, policies: Policies)
    ensures var died := Fate(DecidingDied, Granted, [], Finished);
            ExecuteOne(Some(Tool(false)), call, died, policies).events == [Started(call.id)]
    ensures var allowed := Fate(Judged(false, Permission.Allow), Granted, [], Finished);
            && ExecuteOne(None, call, allowed, policies).events == [Started(call.id)]
            && ExecuteOne(Some(Tool(false)), call, allowed, policies).reached
            && ExecuteOne(Some(Tool(false)), call, allowed, policies).events == [Started(call.id)]
    ensures var asked := Fate(Judged(true, Permission.Allow), AskingDied(true), [], Finished);
            ExecuteOne(Some(Tool(false)), call, asked, policies).events
              == [Started(call.id), Asked(call.id), Answered(call.id, true)]
    ensures Terminals([Started(call.id)]) == Terminals([Started(call.id), Asked(call.id), Answered(call.id, true)]) == 0
  {
    NoneBefore([Started(call.id)]);
    NoneBefore([Started(call.id), Asked(call.id), Answered(call.id, true)]);
    FloorHolds(false, Permission.Allow);
    FloorHolds(true, Permission.Allow);
    assert ProgressOf(call.id, []) == [] && FinalOf([]).None?;
  }

  /** A success is announced under the call's own id. */
  lemma SucceedsAsItself(tool: Option<Tool>, call: Call, fate: Fate, policies: Policies)
    ensures var r := ExecuteOne(tool, call, fate, policies);
            r.events != [] && (r.events[|r.events| - 1].Succeeded? ==> r.events[|r.events| - 1] == Succeeded(call.id))
  {
    if tool.Some? {
      var before := [Started(call.id)] + Questions(call.id, fate.deciding, fate.reply);
      assert Ongoing(call, before);
      if GoesAhead(fate) { HandleSucceedsAsItself(call, fate, before, policies); }
    }
  }

  lemma HandleSucceedsAsItself(call: Call, fate: Fate, before: seq<Event>, policies: Policies)
    requires Ongoing(call, before)
    ensures var r := Handle(call, fate, before, policies);
            r.events != [] && (r.events[|r.events| - 1].Succeeded? ==> r.events[|r.events| - 1] == Succeeded(call.id))
  {
    ProgressIsOngoing(call.id, fate.stream);
    assert Ongoing(call, before + ProgressOf(call.id, fate.stream));
  }

  /** A settled part answers its own call. */
  lemma SettledAnswers(tool: Option<Tool>, call: Call, fate: Fate, policies: Policies)
    ensures var o := ExecuteOne(tool, call, fate, policies).outcome;
            o.Settled? ==> o.part.id == call.id && o.part.name == call.name && (o.part.payload.Result? ==> tool.Some?)
  {
  }

  // --------------------------------------------------------------- the progress budget

  function Total(sizes: seq<nat>): nat {
    if sizes == [] then 0 else sizes[0] + Total(sizes[1..])
  }

  /** The sizes of the reports published, of all those made in a submission. */
  function Published(sizes: seq<nat>, spent: nat, limit: nat): seq<nat> {
    if sizes == [] then []
    else (if spent + sizes[0] <= limit then [sizes[0]] else []) + Published(sizes[1..], spent + sizes[0], limit)
  }

  lemma {:induction false} NothingPublished(sizes: seq<nat>, spent: nat, limit: nat)
    requires spent > limit
    ensures Published(sizes, spent, limit) == []
    decreases |sizes|
  {
    if sizes != [] { NothingPublished(sizes[1..], spent + sizes[0], limit); }
  }

  /** What is published is the longest prefix within the ceiling: after one refusal, nothing more. */
  lemma {:induction false} PublishedIsPrefix(sizes: seq<nat>, spent: nat, limit: nat)
    requires spent <= limit
    ensures var out := Published(sizes, spent, limit);
            && out <= sizes && spent + Total(out) <= limit
            && (|out| < |sizes| ==> spent + Total(sizes[..|out| + 1]) > limit)
    decreases |sizes|
  {
    if sizes != [] {
      var head, rest := sizes[0], sizes[1..];
      if spent + head <= limit {
        PublishedIsPrefix(rest, spent + head, limit);
        var out := Published(rest, spent + head, limit);
        assert ([head] + out)[1..] == out;
        if |out| < |rest| { assert sizes[..|out| + 2][1..] == rest[..|out| + 1]; }
      } else {
        NothingPublished(rest, spent + head, limit);
        assert sizes[..1] == [head] && [head][1..] == [];
      }
    }
  }

  /** The bytes of progress a submission has published, against its ceiling. */
  class Meter {
    const limit: nat
    var spent: nat

    constructor (limit: nat)
      ensures this.limit == limit && spent == 0
    {
      this.limit := limit;
      spent := 0;
    }

    /** The size is spent whether or not the event is published. */
    method Publish(size: nat) returns (published: bool)
      modifies this`spent
      ensures spent == old(spent) + size && (published <==> spent <= limit)
    {
      spent := spent + size;
      published := spent <= limit;
    }

    /** The reports of a submission, in the order its calls make them. */
    method PublishEach(sizes: seq<nat>) returns (published: seq<nat>)
      modifies this`spent
      ensures published == Published(sizes, old(spent), limit)
      ensures spent == old(spent) + Total(sizes)
    {
      published := [];
      assert sizes[0..] == sizes;
      for i := 0 to |sizes|
        invariant spent + Total(sizes[i..]) == old(spent) + Total(sizes)
        invariant published + Published(sizes[i..], spent, limit) == Published(sizes, old(spent), limit)
      {
        assert sizes[i..][0] == sizes[i] && sizes[i..][1..] == sizes[i + 1..];
        ghost var rest := Published(sizes[i + 1..], spent + sizes[i], limit);
        var kept := Publish(sizes[i]);
        assert published + ([sizes[i]] + rest) == (published + [sizes[i]]) + rest && [] + rest == rest;
        if kept { published := published + [sizes[i]]; }
      }
      assert published + [] == published;
    }
  }
}
