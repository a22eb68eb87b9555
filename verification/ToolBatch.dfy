/**
 One model response's tool calls (src/ToolExecution.ts:916-985, 1059-1115; src/AgentTurn.ts:645-707): the
 unique-id check, the `Alone` rejection, hidden calls, grouping by name, and results in the order of the calls.
 */
module ToolBatch {
  import opened Base
  import opened Sorting
  import opened ToolCall

  /** A turn's harness-executed calls and their results; `own` are the harness's own tools, on which alone
      a turn whose tools were withheld may have run anything. */
  datatype Work = Work(calls: seq<Call>, parts: seq<Part>, withheld: bool, own: set<string>)

  /** One result for each call, in call order, matched by id; and no id twice. */
  predicate Matched(w: Work) {
    && |w.parts| == |w.calls|
    && (forall i | 0 <= i < |w.calls| ::
          && w.parts[i].id == w.calls[i].id
          && (w.withheld && w.parts[i].payload.Result? ==> w.calls[i].name in w.own))
    && Distinct(w.calls)
  }

  predicate Distinct(calls: seq<Call>) {
    forall i, j | 0 <= i < j < |calls| :: calls[i].id != calls[j].id
  }

  /** The agent's tools and those the exposure shows, the harness's own among them, and whether they are withheld. */
  datatype Offer = Offer(toolkit: map<string, Tool>, exposed: Option<set<string>>, own: set<string>, withheld: bool)

  /** A response, and what its turn brings to it. A call without a fate is interrupted before it starts. */
  datatype Batch = Batch(response: seq<Call>, offer: Offer, perTool: bool, policies: Policies, fates: map<string, Fate>)

  /** `resolveToolkit`: a final turn keeps only the harness's own tools, and exposure restricts nothing on it. */
  function Toolkit(b: Batch): map<string, Tool> {
    if b.offer.withheld then map name | name in b.offer.toolkit && name in b.offer.own :: b.offer.toolkit[name]
    else b.offer.toolkit
  }

  // ------------------------------------------------------- each call, by its place

  function ToolOf(b: Batch, call: Call): Option<Tool> {
    if call.name in Toolkit(b) then Some(Toolkit(b)[call.name]) else None
  }

  function RunOf(b: Batch, call: Call): Ran {
    if call.id in b.fates then ExecuteOne(ToolOf(b, call), call, b.fates[call.id], b.policies)
    else Ran([], false, Unsettled)
  }

  /** `refuseBatchMember`: announced like any call, and always the model's to read. */
  function Refuse(call: Call, error: Error): Ran {
    Failure(call, [Started(call.id)], false, error, true)
  }

  predicate MustBeAlone(b: Batch, call: Call) {
    call.name in Toolkit(b) && Toolkit(b)[call.name].alone
  }

  /** A call that must be alone has company. */
  predicate AloneBroken(b: Batch, calls: seq<Call>) {
    |calls| >= 2 && exists i | 0 <= i < |calls| :: MustBeAlone(b, calls[i])
  }

  predicate Hidden(b: Batch, call: Call) {
    !b.offer.withheld && b.offer.exposed.Some? && call.name !in b.offer.exposed.value
  }

  /** What happens to a call, given only whether its batch is rejected: the specification of `execute`. */
  function RanAt(b: Batch, rejected: bool, call: Call): Ran {
    if rejected then Refuse(call, if MustBeAlone(b, call) then NotAlone else BatchRejected)
    else if Hidden(b, call) then Refuse(call, NotExposed)
    else RunOf(b, call)
  }

  function RanEach(b: Batch, rejected: bool, calls: seq<Call>): (rans: seq<Ran>)
    ensures |rans| == |calls| && forall i | 0 <= i < |calls| :: rans[i] == RanAt(b, rejected, calls[i])
  {
    seq(|calls|, i requires 0 <= i < |calls| => RanAt(b, rejected, calls[i]))
  }

  /** All or nothing: one failed call fails them all. */
  function PartsOf(rans: seq<Ran>): (parts: Option<seq<Part>>)
    ensures parts.Some? <==> forall i | 0 <= i < |rans| :: rans[i].outcome.Settled?
    ensures parts.Some? ==>
              |parts.value| == |rans| && forall i | 0 <= i < |rans| :: parts.value[i] == rans[i].outcome.part
  {
    if forall i | 0 <= i < |rans| :: rans[i].outcome.Settled?
    then Some(seq(|rans|, i requires 0 <= i < |rans| => rans[i].outcome.part)) else None
  }

  // -------------------------------------------------- grouping by name, and back

  datatype Group = Group(name: string, members: seq<Indexed<Call>>)

  function Flatten(groups: seq<Group>): seq<Indexed<Call>> {
    if groups == [] then [] else groups[0].members + Flatten(groups[1..])
  }

  function Enumerated(calls: seq<Call>): (xs: seq<Indexed<Call>>)
    ensures |xs| == |calls| && forall i | 0 <= i < |calls| :: xs[i] == Indexed(i, calls[i])
  {
    seq(|calls|, i requires 0 <= i < |calls| => Indexed(i, calls[i]))
  }

  lemma {:induction false} FlattenAdds(groups: seq<Group>, k: nat, x: Indexed<Call>)
    requires k < |groups|
    ensures var grown := groups[k := Group(groups[k].name, groups[k].members + [x])];
            multiset(Flatten(grown)) == multiset(Flatten(groups)) + multiset{x}
    decreases |groups|
  {
    var grown := groups[k := Group(groups[k].name, groups[k].members + [x])];
    if k > 0 {
      FlattenAdds(groups[1..], k - 1, x);
      assert grown[1..] == groups[1..][k - 1 := grown[k]];
    }
  }

  lemma {:induction false} FlattenSnoc(groups: seq<Group>, g: Group)
    ensures Flatten(groups + [g]) == Flatten(groups) + g.members
  {
    if groups == [] {
      assert ([g])[1..] == [];
    } else {
      assert (groups + [g])[1..] == groups[1..] + [g];
      FlattenSnoc(groups[1..], g);
    }
  }

  /** Groups in the order their names first appear, each holding only its own name's calls. */
  predicate Grouped(groups: seq<Group>) {
    && (forall g, h | 0 <= g < h < |groups| :: groups[g].name != groups[h].name)
    && (forall g, m | 0 <= g < |groups| && 0 <= m < |groups[g].members| ::
          groups[g].members[m].value.name == groups[g].name)
  }

  /** A call added to its name's group, or to a new group at the end. */
  function Added(groups: seq<Group>, k: nat, x: Indexed<Call>): seq<Group>
    requires k <= |groups|
  {
    if k == |groups| then groups + [Group(x.value.name, [x])]
    else groups[k := Group(groups[k].name, groups[k].members + [x])]
  }

  lemma AddedIsGrouped(groups: seq<Group>, k: nat, x: Indexed<Call>)
    requires Grouped(groups) && k <= |groups| && (k < |groups| ==> groups[k].name == x.value.name)
    requires forall j | 0 <= j < k :: groups[j].name != x.value.name
    ensures Grouped(Added(groups, k, x))
  {
  }

  lemma AddedFlattens(groups: seq<Group>, k: nat, x: Indexed<Call>)
    requires k <= |groups|
    ensures multiset(Flatten(Added(groups, k, x))) == multiset(Flatten(groups)) + multiset{x}
  {
    if k == |groups| { FlattenSnoc(groups, Group(x.value.name, [x])); } else { FlattenAdds(groups, k, x); }
  }

  /** The loop that fills the insertion-ordered map of groups. */
  method GroupByName(calls: seq<Call>) returns (groups: seq<Group>)
    ensures Grouped(groups) && multiset(Flatten(groups)) == multiset(Enumerated(calls))
  {
    groups := [];
    ghost var all := Enumerated(calls);
    for index := 0 to |calls|
      invariant Grouped(groups)
      invariant multiset(Flatten(groups)) == multiset(all[..index])
    {
      var indexed := Indexed(index, calls[index]);
      var k := FindGroup(groups, calls[index].name);
      AddedIsGrouped(groups, k, indexed);
      AddedFlattens(groups, k, indexed);
      groups := Added(groups, k, indexed);
      TakeMore(all, index);
    }
    assert all[..|calls|] == all;
  }

  /** The map's lookup: the position of a name's group, or the end. */
  method FindGroup(groups: seq<Group>, name: string) returns (k: nat)
    ensures k <= |groups| && (k < |groups| ==> groups[k].name == name)
    ensures forall j | 0 <= j < k :: groups[j].name != name
  {
    k := 0;
    while k < |groups| && groups[k].name != name
      invariant k <= |groups| && forall j | 0 <= j < k :: groups[j].name != name
    {
      k := k + 1;
    }
  }

  function RunEach(b: Batch, xs: seq<Indexed<Call>>): (rans: seq<Indexed<Ran>>)
    ensures |rans| == |xs| && forall i | 0 <= i < |xs| :: rans[i] == Indexed(xs[i].index, RunOf(b, xs[i].value))
  {
    seq(|xs|, i requires 0 <= i < |xs| => Indexed(xs[i].index, RunOf(b, xs[i].value)))
  }

  lemma {:induction false} InsertRuns(b: Batch, x: Indexed<Call>, xs: seq<Indexed<Call>>)
    ensures Insert(Indexed(x.index, RunOf(b, x.value)), RunEach(b, xs)) == RunEach(b, Insert(x, xs))
    decreases |xs|
  {
    if xs != [] && xs[|xs| - 1].index > x.index {
      InsertRuns(b, x, xs[..|xs| - 1]);
      assert RunEach(b, xs)[..|xs| - 1] == RunEach(b, xs[..|xs| - 1]);
    }
  }

  lemma {:induction false} SortRuns(b: Batch, xs: seq<Indexed<Call>>)
    ensures Sort(RunEach(b, xs)) == RunEach(b, Sort(xs))
    decreases |xs|
  {
    if xs != [] {
      SortRuns(b, xs[..|xs| - 1]);
      assert RunEach(b, xs)[..|xs| - 1] == RunEach(b, xs[..|xs| - 1]);
      InsertRuns(b, xs[|xs| - 1], Sort(xs[..|xs| - 1]));
    }
  }

  /** MAIN: however the calls are grouped, sorting the groups' results by index puts result i at place i. */
  lemma RegroupKeepsPlaces(b: Batch, calls: seq<Call>, flat: seq<Indexed<Call>>)
    requires multiset(flat) == multiset(Enumerated(calls))
    ensures var sorted := Sort(RunEach(b, flat));
            |sorted| == |calls| && forall i | 0 <= i < |calls| :: sorted[i] == Indexed(i, RunOf(b, calls[i]))
  {
    SortRuns(b, flat);
    SortSorts(flat);
    SortedIsUnique(Sort(flat), Enumerated(calls));
  }

  // ---------------------------------------------------------------------- execute

  /** `dispatch`: one at a time by place, or through the groups of `executePerTool`. */
  method Dispatch(b: Batch, calls: seq<Call>) returns (rans: seq<Ran>)
    ensures |rans| == |calls| && forall i | 0 <= i < |calls| :: rans[i] == RunOf(b, calls[i])
  {
    if b.perTool {
      var groups := GroupByName(calls);
      var flat := Flatten(groups);
      RegroupKeepsPlaces(b, calls, flat);
      var completed := Sort(RunEach(b, flat));
      rans := seq(|completed|, i requires 0 <= i < |completed| => completed[i].value);
    } else {
      rans := seq(|calls|, i requires 0 <= i < |calls| => RunOf(b, calls[i]));
    }
  }

  function HiddenOf(b: Batch, calls: seq<Call>): seq<Call> {
    if calls == [] then [] else (if Hidden(b, calls[0]) then [calls[0]] else []) + HiddenOf(b, calls[1..])
  }

  function ShownOf(b: Batch, calls: seq<Call>): seq<Call> {
    if calls == [] then [] else (if Hidden(b, calls[0]) then [] else [calls[0]]) + ShownOf(b, calls[1..])
  }

  lemma {:induction false} SplitAt(b: Batch, calls: seq<Call>, i: nat)
    requires i < |calls|
    ensures |HiddenOf(b, calls[..i])| <= |HiddenOf(b, calls)| && |ShownOf(b, calls[..i])| <= |ShownOf(b, calls)|
    ensures var h, s := |HiddenOf(b, calls[..i])|, |ShownOf(b, calls[..i])|;
            if Hidden(b, calls[i]) then h < |HiddenOf(b, calls)| && HiddenOf(b, calls)[h] == calls[i]
            else s < |ShownOf(b, calls)| && ShownOf(b, calls)[s] == calls[i]
    decreases |calls|
  {
    if i > 0 {
      SplitAt(b, calls[1..], i - 1);
      assert calls[..i][1..] == calls[1..][..i - 1] && calls[..i][0] == calls[0];
    } else {
      assert calls[..0] == [];
    }
  }

  lemma {:induction false} SplitSnoc(b: Batch, calls: seq<Call>, call: Call)
    ensures HiddenOf(b, calls + [call]) == HiddenOf(b, calls) + (if Hidden(b, call) then [call] else [])
    ensures ShownOf(b, calls + [call]) == ShownOf(b, calls) + (if Hidden(b, call) then [] else [call])
    decreases |calls|
  {
    if calls == [] {
      assert ([call])[1..] == [];
    } else {
      assert (calls + [call])[1..] == calls[1..] + [call];
      SplitSnoc(b, calls[1..], call);
    }
  }

  /** The merge by two counters: refusals where the call was hidden, results where it ran. */
  method Merge(b: Batch, calls: seq<Call>, refusals: seq<Ran>, results: seq<Ran>) returns (merged: seq<Ran>)
    requires |refusals| == |HiddenOf(b, calls)| && |results| == |ShownOf(b, calls)|
    requires forall k | 0 <= k < |refusals| :: refusals[k] == Refuse(HiddenOf(b, calls)[k], NotExposed)
    requires forall k | 0 <= k < |results| :: results[k] == RunOf(b, ShownOf(b, calls)[k])
    ensures merged == RanEach(b, false, calls)
  {
    var refusal, result := 0, 0;
    merged := [];
    for i := 0 to |calls|
      invariant refusal == |HiddenOf(b, calls[..i])| && result == |ShownOf(b, calls[..i])|
      invariant |merged| == i && forall j | 0 <= j < i :: merged[j] == RanAt(b, false, calls[j])
    {
      SplitAt(b, calls, i);
      assert calls[..i + 1] == calls[..i] + [calls[i]];
      SplitSnoc(b, calls[..i], calls[i]);
      if Hidden(b, calls[i]) {
        merged := merged + [refusals[refusal]];
        refusal := refusal + 1;
      } else {
        merged := merged + [results[result]];
        result := result + 1;
      }
    }
  }

  lemma {:induction false} NoneHidden(b: Batch, calls: seq<Call>)
    requires HiddenOf(b, calls) == []
    ensures forall i | 0 <= i < |calls| :: !Hidden(b, calls[i])
  {
    if calls != [] { NoneHidden(b, calls[1..]); }
  }

  /** MAIN: `execute`, by its own branches, gives each call what its place specifies. */
  method Execute(b: Batch, calls: seq<Call>) returns (rans: seq<Ran>)
    ensures rans == RanEach(b, AloneBroken(b, calls), calls)
  {
    if AloneBroken(b, calls) {
      rans := seq(|calls|, i requires 0 <= i < |calls| =>
                    Refuse(calls[i], if MustBeAlone(b, calls[i]) then NotAlone else BatchRejected));
    } else {
      var hidden := HiddenOf(b, calls);
      if hidden == [] {
        NoneHidden(b, calls);
        rans := Dispatch(b, calls);
      } else {
        var results := Dispatch(b, ShownOf(b, calls));
        var refusals := seq(|hidden|, i requires 0 <= i < |hidden| => Refuse(hidden[i], NotExposed));
        rans := Merge(b, calls, refusals, results);
      }
    }
  }

  // ------------------------------------------------------------------- a turn's work

  /** The calls the provider has not already executed. */
  function Outstanding(response: seq<Call>): seq<Call> {
    if response == [] then []
    else (if response[0].providerExecuted then [] else [response[0]]) + Outstanding(response[1..])
  }

  /** The check that no id is named twice. */
  method UniqueIds(calls: seq<Call>) returns (unique: bool)
    ensures unique <==> Distinct(calls)
  {
    var seen: set<string> := {};
    for i := 0 to |calls|
      invariant Distinct(calls[..i]) && forall id :: id in seen <==> exists j :: 0 <= j < i && calls[j].id == id
    {
      if calls[i].id in seen { return false; }
      seen := seen + {calls[i].id};
    }
    assert calls[..|calls|] == calls;
    return true;
  }

  function RansOf(b: Batch): seq<Ran> {
    var calls := Outstanding(b.response);
    RanEach(b, AloneBroken(b, calls), calls)
  }

  /** What a turn commits: its calls and their results, or nothing. */
  function TurnOutcome(b: Batch): (w: Option<Work>)
    ensures w.Some? ==>
              Matched(w.value) && w.value.calls == Outstanding(b.response) && w.value.withheld == b.offer.withheld
  {
    var calls := Outstanding(b.response);
    var parts := PartsOf(RansOf(b));
    if !Distinct(calls) || parts.None? then None
    else
      var work := Work(calls, parts.value, b.offer.withheld, b.offer.own);
      assert Matched(work) by {
        forall i | 0 <= i < |calls|
          ensures work.parts[i].id == calls[i].id
          ensures work.withheld && work.parts[i].payload.Result? ==> calls[i].name in work.own
        {
          RanAnswers(b, AloneBroken(b, calls), calls[i]);
        }
      }
      Some(work)
  }

  lemma RanAnswers(b: Batch, rejected: bool, call: Call)
    ensures var o := RanAt(b, rejected, call).outcome;
            o.Settled? ==>
              && o.part.id == call.id && o.part.name == call.name
              && (b.offer.withheld && o.part.payload.Result? ==> call.name in b.offer.own)
  {
    if call.id in b.fates { SettledAnswers(ToolOf(b, call), call, b.fates[call.id], b.policies); }
  }

  method Turn(b: Batch) returns (work: Option<Work>)
    ensures work == TurnOutcome(b)
  {
    var calls := Outstanding(b.response);
    var unique := UniqueIds(calls);
    if !unique { return None; }
    var rans := Execute(b, calls);
    var parts := PartsOf(rans);
    work := if parts.Some? then Some(Work(calls, parts.value, b.offer.withheld, b.offer.own)) else None;
  }

  // -------------------------------------------------------------------- theorems

  /**
   MAIN: in a batch a call reaches its handler exactly when it starts, no call in the batch that must be
   alone has company, its tool is exposed this turn and in the toolkit, and its parameters do not decode
   or are permitted: no floor and an allow, or no denial and a granted question.
   */
  lemma GateIff(b: Batch, calls: seq<Call>, i: nat)
    requires i < |calls|
    ensures var call := calls[i];
            RanEach(b, AloneBroken(b, calls), calls)[i].reached <==>
              && !AloneBroken(b, calls) && !Hidden(b, call) && call.name in Toolkit(b) && call.id in b.fates
              && var d := b.fates[call.id].deciding;
                 (d.Undecodable? || (d.Judged? && Permitted(d.needsApproval, d.policy, b.fates[call.id].reply)))
  {
    var call := calls[i];
    if call.id in b.fates { ReachedIff(ToolOf(b, call), call, b.fates[call.id], b.policies); }
  }

  /** Place `i` of the batch reached a handler that then died or met a limit of the engine. */
  predicate Fatal(b: Batch, i: nat) {
    && i < |Outstanding(b.response)| && RansOf(b)[i].reached && Outstanding(b.response)[i].id in b.fates
    && NotNegotiable(b.fates[Outstanding(b.response)[i].id])
  }

  /** MAIN: one such call fails its whole turn, whatever else the batch came to and under all failure policies. */
  lemma LimitsAreNotNegotiable(b: Batch, i: nat, policies: Policies)
    requires Fatal(b, i)
    ensures TurnOutcome(b.(policies := policies)).None?
  {
    var c, calls := b.(policies := policies), Outstanding(b.response);
    GateIff(b, calls, i);
    GateIff(c, calls, i);
    NeverReturned(ToolOf(c, calls[i]), calls[i], b.fates[calls[i].id], policies);
    assert RansOf(c)[i].reached && RansOf(c)[i].outcome.Unsettled?;
  }

  /** MAIN: a batch that breaks `Alone` is answered whole, whatever the policies, and nothing of it runs. */
  lemma AloneIsAnsweredWhole(b: Batch)
    requires AloneBroken(b, Outstanding(b.response))
    ensures forall i | 0 <= i < |RansOf(b)| :: !RansOf(b)[i].reached && Closed(RansOf(b)[i].events)
    ensures TurnOutcome(b).Some? <==> Distinct(Outstanding(b.response))
    ensures TurnOutcome(b).Some? ==>
              forall i | 0 <= i < |TurnOutcome(b).value.parts| :: TurnOutcome(b).value.parts[i].payload.Refusal?
  {
    forall i | 0 <= i < |RansOf(b)| ensures !RansOf(b)[i].reached && Closed(RansOf(b)[i].events) {
      RefusalCloses(Outstanding(b.response)[i]);
    }
  }

  lemma RefusalCloses(call: Call)
    ensures Closed([Started(call.id)] + [FailedCall(call.id, true)])
  {
    EndsClosed(call, [Started(call.id)], FailedCall(call.id, true));
  }

  /**
   MAIN: every call of a batch that starts is closed by exactly one terminal event, unless it ends in one
   of the defects that announce nothing; and one not started has no events.
   */
  lemma BatchTerminalIff(b: Batch, calls: seq<Call>, i: nat)
    requires i < |calls|
    ensures var call, r := calls[i], RanEach(b, AloneBroken(b, calls), calls)[i];
            var refused := AloneBroken(b, calls) || Hidden(b, call);
            && (r.events == [] <==> !refused && call.id !in b.fates)
            && (Closed(r.events) <==>
                  refused || (call.id in b.fates && !Silent(ToolOf(b, call), b.fates[call.id])))
            && Terminals(r.events) <= 1
  {
    var call := calls[i];
    RefusalCloses(call);
    if call.id in b.fates { TerminalIff(ToolOf(b, call), call, b.fates[call.id], b.policies); }
    assert Terminals([]) == 0;
  }

  /** The last thing announced of a call is that the model has a result for it. */
  predicate Told(r: Ran, call: Call) {
    && r.events != []
    && (r.events[|r.events| - 1] == Succeeded(call.id) || r.events[|r.events| - 1] == FailedCall(call.id, true))
  }

  lemma ToldIff(b: Batch, rejected: bool, call: Call)
    ensures Told(RanAt(b, rejected, call), call) <==> RanAt(b, rejected, call).outcome.Settled?
  {
    if call.id in b.fates {
      TerminalIff(ToolOf(b, call), call, b.fates[call.id], b.policies);
      SucceedsAsItself(ToolOf(b, call), call, b.fates[call.id], b.policies);
    }
  }

  /** MAIN: a turn commits exactly when no id is named twice and, of every call, the model was announced a result. */
  lemma CommitsIff(b: Batch)
    ensures var calls := Outstanding(b.response);
            TurnOutcome(b).Some? <==> Distinct(calls) && forall i | 0 <= i < |calls| :: Told(RansOf(b)[i], calls[i])
  {
    var calls := Outstanding(b.response);
    forall i | 0 <= i < |calls| ensures Told(RansOf(b)[i], calls[i]) <==> RansOf(b)[i].outcome.Settled? {
      ToldIff(b, AloneBroken(b, calls), calls[i]);
    }
  }
}
