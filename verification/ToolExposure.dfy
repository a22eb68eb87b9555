/**
 Which tools a turn shows the model (src/ToolExposure.ts:157-194): the latest selection in history, the
 exposed names, and that a call to a tool its principal may not see never runs.
 */
module ToolExposure {
  import opened Base
  import opened Picking
  import ToolBatch

  const DISCOVER := "discover_tools"

  /** A part of a tool message: a result, with the selection it decodes to if it is a discovery's. */
  datatype Result = ToolResult(name: string, isFailure: bool, selected: Option<seq<string>>) | OtherPart

  /** A message of history; only tool messages carry results. */
  datatype Message = ToolMessage(parts: seq<Result>) | OtherMessage

  datatype Exposure = Eager | Progressive(pinned: seq<string>, maxTools: nat)

  // ------------------------------------------------------------------ the selection

  predicate IsDiscovery(p: Result) {
    p.ToolResult? && p.name == DISCOVER && !p.isFailure && p.selected.Some?
  }

  /** A discovery is a successful result of the discovery tool that decodes, whatever it selected. */
  lemma DiscoveryIff(p: Result)
    ensures IsDiscovery(p) <==> exists selected :: p == ToolResult("discover_tools", false, Some(selected))
  {
    if IsDiscovery(p) { assert p == ToolResult("discover_tools", false, Some(p.selected.value)); }
  }

  predicate Discovers(m: Message) {
    m.ToolMessage? && exists j | 0 <= j < |m.parts| :: IsDiscovery(m.parts[j])
  }

  /** Part `j` of message `i` is the one read: the first discovery of the last message that has any. */
  predicate Latest(history: seq<Message>, i: nat, j: nat) {
    && i < |history| && history[i].ToolMessage? && j < |history[i].parts|
    && IsDiscovery(history[i].parts[j])
    && (forall k | 0 <= k < j :: !IsDiscovery(history[i].parts[k]))
    && (forall k | i < k < |history| :: !Discovers(history[k]))
  }

  function FirstIn(parts: seq<Result>): Option<seq<string>> {
    if parts == [] then None
    else if IsDiscovery(parts[0]) then Some(parts[0].selected.value)
    else FirstIn(parts[1..])
  }

  function Selection(history: seq<Message>): seq<string>
    decreases |history|
  {
    if history == [] then []
    else
      var last := history[|history| - 1];
      var found := if last.ToolMessage? then FirstIn(last.parts) else None;
      if found.Some? then found.value else Selection(history[..|history| - 1])
  }

  /** The backward scan. */
  method SelectionFrom(history: seq<Message>) returns (selected: seq<string>)
    ensures selected == Selection(history)
  {
    var index := |history|;
    assert history[..index] == history;
    while index > 0
      invariant 0 <= index <= |history| && Selection(history) == Selection(history[..index])
    {
      index := index - 1;
      assert history[..index + 1][..index] == history[..index] && history[..index + 1][index] == history[index];
      if history[index].ToolMessage? {
        var parts := history[index].parts;
        for k := 0 to |parts|
          invariant FirstIn(parts) == FirstIn(parts[k..])
        {
          if IsDiscovery(parts[k]) { return parts[k].selected.value; }
          assert parts[k..][1..] == parts[k + 1..];
        }
      }
    }
    selected := [];
  }

  lemma {:induction false} FirstInIsFirst(parts: seq<Result>, j: nat)
    requires j < |parts| && IsDiscovery(parts[j]) && forall k | 0 <= k < j :: !IsDiscovery(parts[k])
    ensures FirstIn(parts) == Some(parts[j].selected.value)
  {
    if j > 0 { FirstInIsFirst(parts[1..], j - 1); }
  }

  lemma {:induction false} FirstInFinds(parts: seq<Result>)
    ensures FirstIn(parts).None? <==> forall k | 0 <= k < |parts| :: !IsDiscovery(parts[k])
  {
    if parts != [] {
      FirstInFinds(parts[1..]);
      assert forall k | 1 <= k < |parts| :: parts[k] == parts[1..][k - 1];
    }
  }

  /** The selection is the first discovery's of the last message that has any, and empty only if there is none. */
  lemma {:induction false} SelectionIsLatest(history: seq<Message>, i: nat, j: nat)
    ensures Latest(history, i, j) ==> Selection(history) == history[i].parts[j].selected.value
    ensures (forall k | 0 <= k < |history| :: !Discovers(history[k])) ==> Selection(history) == []
    decreases |history|
  {
    if history != [] {
      var last := history[|history| - 1];
      if last.ToolMessage? { FirstInFinds(last.parts); }
      SelectionIsLatest(history[..|history| - 1], i, j);
      if Latest(history, i, j) && i == |history| - 1 { FirstInIsFirst(last.parts, j); }
      if Latest(history, i, j) && i < |history| - 1 {
        assert !Discovers(last) && Latest(history[..|history| - 1], i, j);
      }
    }
  }

  /** Part `j` of message `i` is the newest discovery of all. */
  predicate Newest(history: seq<Message>, i: nat, j: nat) {
    && i < |history| && history[i].ToolMessage? && j < |history[i].parts|
    && IsDiscovery(history[i].parts[j])
    && (forall k | j < k < |history[i].parts| :: !IsDiscovery(history[i].parts[k]))
    && (forall k | i < k < |history| :: !Discovers(history[k]))
  }

  lemma {:induction false} FirstDiscovery(parts: seq<Result>, j: nat) returns (f: nat)
    requires j < |parts| && IsDiscovery(parts[j])
    ensures f <= j && IsDiscovery(parts[f]) && forall k | 0 <= k < f :: !IsDiscovery(parts[k])
    decreases j
  {
    f := j;
    if k :| 0 <= k < j && IsDiscovery(parts[k]) { f := FirstDiscovery(parts, k); }
  }

  /**
   MAIN: a new search replaces the selection exactly when it selected what the first search answered in its own
   message did -- so always when it is the only one there.
   */
  lemma NewestIsReadIff(history: seq<Message>, i: nat, j: nat) returns (f: nat)
    requires Newest(history, i, j)
    ensures f <= j && Latest(history, i, f)
    ensures Selection(history) == history[i].parts[j].selected.value
            <==> history[i].parts[f].selected == history[i].parts[j].selected
  {
    f := FirstDiscovery(history[i].parts, j);
    SelectionIsLatest(history, i, f);
  }

  /** Of two searches answered in one message, the second is not the one read. */
  lemma SecondSearchIsIgnored()
    ensures var found := [ToolResult(DISCOVER, false, Some(["read"])), ToolResult(DISCOVER, false, Some(["write"]))];
            Newest([ToolMessage(found)], 0, 1) && Selection([ToolMessage(found)]) == ["read"] != ["write"]
  {
    var found := [ToolResult(DISCOVER, false, Some(["read"])), ToolResult(DISCOVER, false, Some(["write"]))];
    SelectionIsLatest([ToolMessage(found)], 0, 0);
    assert |"read"| != |"write"|;
  }

  // ------------------------------------------------------------------ exposed names

  function Filter(names: seq<string>, keep: string -> bool): (kept: seq<string>)
    ensures forall n :: n in kept <==> n in names && keep(n)
    ensures |kept| <= |names|
  {
    if names == [] then [] else (if keep(names[0]) then [names[0]] else []) + Filter(names[1..], keep)
  }

  function Names(s: seq<string>): set<string> {
    set n | n in s
  }

  function Always(e: Exposure, eligible: seq<string>, protocol: seq<string>): seq<string>
    requires e.Progressive?
  {
    [DISCOVER] + protocol + Filter(e.pinned, n => n in eligible)
  }

  function Room(e: Exposure, always: seq<string>): nat
    requires e.Progressive?
  {
    if e.maxTools > |always| then e.maxTools - |always| else 0
  }

  /** As much of the selection as there is room for beside what is always shown. */
  function Taken(e: Exposure, eligible: seq<string>, always: seq<string>, history: seq<Message>): (taken: seq<string>)
    requires e.Progressive?
    ensures |taken| <= Room(e, always) && forall n | n in taken :: n in eligible && n in Selection(history)
  {
    var selected := Filter(Selection(history), n => n in eligible && n !in always);
    var taken := selected[..if Room(e, always) < |selected| then Room(e, always) else |selected|];
    assert forall i | 0 <= i < |taken| :: taken[i] == selected[i] && selected[i] in selected;
    taken
  }

  /** `exposed`: `None` when nothing is restricted. `visible` is the principal's view. */
  function Exposed(
    e: Exposure, registered: seq<string>, protocol: seq<string>, visible: string -> bool, history: seq<Message>)
    : Option<set<string>>
  {
    var eligible := Filter(registered, visible);
    match e
    case Eager => if |eligible| == |registered| then None else Some(Names(eligible + protocol))
    case Progressive(_, _) =>
      var always := Always(e, eligible, protocol);
      Some(Names(always + Taken(e, eligible, always, history)))
  }

  lemma AlwaysDeclared(e: Exposure, eligible: seq<string>, protocol: seq<string>, name: string)
    requires e.Progressive? && name in Always(e, eligible, protocol)
    ensures name == DISCOVER || name in protocol || name in eligible
  {
    var pinned := Filter(e.pinned, n => n in eligible);
    assert name in [DISCOVER] + protocol || name in pinned;
  }

  lemma {:induction false} AllKept(names: seq<string>, keep: string -> bool)
    requires |Filter(names, keep)| == |names|
    ensures forall n | n in names :: keep(n)
  {
    if names != [] { AllKept(names[1..], keep); }
  }

  /** MAIN: nothing is shown but what is registered and visible, and the harness's own tools. */
  lemma ExposedIsEligible(
    e: Exposure, registered: seq<string>, protocol: seq<string>, visible: string -> bool, history: seq<Message>,
    name: string)
    ensures var x := Exposed(e, registered, protocol, visible, history);
            if x.None? then name in registered ==> visible(name)
            else name in x.value ==>
                   || (name in registered && visible(name)) || name in protocol
                   || (name == DISCOVER && e.Progressive?)
  {
    if e.Eager? && |Filter(registered, visible)| == |registered| { AllKept(registered, visible); }
    if e.Progressive? {
      var always := Always(e, Filter(registered, visible), protocol);
      if name in always { AlwaysDeclared(e, Filter(registered, visible), protocol, name); }
    }
  }

  lemma {:induction false} NamesBound(s: seq<string>)
    ensures |Names(s)| <= |s|
  {
    if s == [] {
      assert Names(s) == {};
    } else {
      NamesBound(s[1..]);
      assert Names(s) == {s[0]} + Names(s[1..]);
    }
  }

  /** MAIN: discovery never grows a progressive turn past its bound, which only declared tools can exceed. */
  lemma ExposedIsBounded(
    e: Exposure, registered: seq<string>, protocol: seq<string>, visible: string -> bool, history: seq<Message>)
    requires e.Progressive?
    ensures var x := Exposed(e, registered, protocol, visible, history);
            var always := Always(e, Filter(registered, visible), protocol);
            x.Some? && Names(always) <= x.value && |x.value| <= Max(e.maxTools, |always|)
  {
    var always := Always(e, Filter(registered, visible), protocol);
    var taken := Taken(e, Filter(registered, visible), always, history);
    NamesBound(always + taken);
    assert forall n :: n in always ==> n in always + taken;
  }

  /**
   MAIN: a tool its principal may not see never runs: whatever history selects and whatever the model calls,
   no call to it reaches its handler while the turn's exposure is in force.
   */
  lemma HiddenNeverRuns(
    b: ToolBatch.Batch, i: nat, e: Exposure, registered: seq<string>, protocol: seq<string>, visible: string -> bool,
    history: seq<Message>)
    requires b.offer.exposed == Exposed(e, registered, protocol, visible, history) && !b.offer.withheld
    requires i < |ToolBatch.RansOf(b)|
    ensures var name := ToolBatch.Outstanding(b.response)[i].name;
            name in registered && !visible(name) && name !in protocol && name != DISCOVER ==>
              !ToolBatch.RansOf(b)[i].reached
  {
    var calls := ToolBatch.Outstanding(b.response);
    ExposedIsEligible(e, registered, protocol, visible, history, calls[i].name);
    ToolBatch.GateIff(b, calls, i);
  }

  // ------------------------------------------------------------ exactly what is shown

  function KeptAt(names: seq<string>, keep: string -> bool): nat -> bool {
    (k: nat) => k < |names| && keep(names[k])
  }

  lemma {:induction false} FilterAt(names: seq<string>, keep: string -> bool) returns (ks: seq<nat>)
    ensures Picked(ks, |names|, KeptAt(names, keep)) && Filter(names, keep) == At(names, ks)
  {
    if names == [] {
      ks := [];
    } else {
      var rest := FilterAt(names[1..], keep);
      ks := (if keep(names[0]) then [0] else []) + Shifted(rest);
      PickedCons(rest, |names| - 1, KeptAt(names[1..], keep), KeptAt(names, keep), ks);
      AtCons(names, rest, keep(names[0]), ks);
    }
  }

  lemma {:induction false} AllAreKept(names: seq<string>, keep: string -> bool)
    requires forall n | n in names :: keep(n)
    ensures |Filter(names, keep)| == |names|
  {
    if names != [] { AllAreKept(names[1..], keep); }
  }

  /** MAIN: eagerly, nothing is restricted when all that is registered is visible; else just the visible is shown. */
  lemma EagerIff(registered: seq<string>, protocol: seq<string>, visible: string -> bool, history: seq<Message>)
    ensures var x := Exposed(Eager, registered, protocol, visible, history);
            && (x.None? <==> forall n | n in registered :: visible(n))
            && (x.Some? ==>
                  forall n :: n in x.value <==> (n in registered && visible(n)) || n in protocol)
  {
    if |Filter(registered, visible)| == |registered| { AllKept(registered, visible); }
    if forall n | n in registered :: visible(n) { AllAreKept(registered, visible); }
  }

  /** The pinned tools that are shown: registered, and visible to the principal. */
  function IsPinned(e: Exposure, registered: seq<string>, visible: string -> bool): nat -> bool
    requires e.Progressive?
  {
    (k: nat) => k < |e.pinned| && e.pinned[k] in registered && visible(e.pinned[k])
  }

  /** The places of a selection that compete for room: registered, visible, and not shown anyway. */
  function Competes(
    e: Exposure, registered: seq<string>, protocol: seq<string>, visible: string -> bool, selected: seq<string>)
    : nat -> bool
    requires e.Progressive?
  {
    (k: nat) =>
      && k < |selected| && selected[k] in registered && visible(selected[k])
      && selected[k] != DISCOVER && selected[k] !in protocol && selected[k] !in e.pinned
  }

  lemma AlwaysIs(e: Exposure, registered: seq<string>, protocol: seq<string>, visible: string -> bool)
    returns (ps: seq<nat>)
    requires e.Progressive?
    ensures Picked(ps, |e.pinned|, IsPinned(e, registered, visible))
    ensures var always := Always(e, Filter(registered, visible), protocol);
            && |always| == 1 + |protocol| + |ps|
            && forall n :: n in always <==>
                 n == DISCOVER || n in protocol || (n in e.pinned && n in registered && visible(n))
  {
    var eligible := Filter(registered, visible);
    var keep := (n: string) => n in eligible;
    ps := FilterAt(e.pinned, keep);
    PickedSame(ps, |e.pinned|, KeptAt(e.pinned, keep), IsPinned(e, registered, visible));
    var pinned := Filter(e.pinned, n => n in eligible);
    SameFilter(e.pinned, keep, n => n in eligible);
    forall n ensures n in [DISCOVER] + protocol + pinned <==> n == DISCOVER || n in protocol || n in pinned {}
  }

  lemma {:induction false} SameFilter(names: seq<string>, keep: string -> bool, other: string -> bool)
    requires forall n | n in names :: keep(n) == other(n)
    ensures Filter(names, keep) == Filter(names, other)
  {
    if names != [] { SameFilter(names[1..], keep, other); }
  }

  lemma TakenIs(
    e: Exposure, registered: seq<string>, protocol: seq<string>, visible: string -> bool, history: seq<Message>)
    returns (ks: seq<nat>)
    requires e.Progressive?
    ensures Picked(ks, |Selection(history)|, Competes(e, registered, protocol, visible, Selection(history)))
    ensures var eligible := Filter(registered, visible);
            var always := Always(e, eligible, protocol);
            var taken := Taken(e, eligible, always, history);
            && |taken| == (if Room(e, always) < |ks| then Room(e, always) else |ks|)
            && forall m | 0 <= m < |taken| :: taken[m] == Selection(history)[ks[m]]
  {
    var eligible := Filter(registered, visible);
    var always := Always(e, eligible, protocol);
    var selected := Selection(history);
    var keep := (n: string) => n in eligible && n !in always;
    var ps := AlwaysIs(e, registered, protocol, visible);
    ks := FilterAt(selected, keep);
    PickedSame(ks, |selected|, KeptAt(selected, keep), Competes(e, registered, protocol, visible, selected));
    SameFilter(selected, keep, n => n in eligible && n !in always);
  }

  /**
   MAIN: progressively, exactly these are shown: the discovery tool, the harness's own, the pinned tools the principal
   may see, and of the selection the first that it may see and that are not shown anyway, while there is room.
   */
  lemma ProgressiveIff(
    e: Exposure, registered: seq<string>, protocol: seq<string>, visible: string -> bool, history: seq<Message>,
    name: string)
    returns (ps: seq<nat>, ks: seq<nat>)
    requires e.Progressive?
    ensures Picked(ps, |e.pinned|, IsPinned(e, registered, visible))
    ensures Picked(ks, |Selection(history)|, Competes(e, registered, protocol, visible, Selection(history)))
    ensures var x := Exposed(e, registered, protocol, visible, history);
            && x.Some?
            && (name in x.value <==>
                  || name == DISCOVER || name in protocol
                  || (name in e.pinned && name in registered && visible(name))
                  || exists m :: 0 <= m < |ks| && 1 + |protocol| + |ps| + m < e.maxTools
                                 && Selection(history)[ks[m]] == name)
  {
    ps := AlwaysIs(e, registered, protocol, visible);
    ks := TakenIs(e, registered, protocol, visible, history);
    var eligible := Filter(registered, visible);
    var always := Always(e, eligible, protocol);
    var taken := Taken(e, eligible, always, history);
    assert name in always + taken <==> name in always || name in taken;
    TakenHas(e, always, taken, Selection(history), ks, name);
  }

  lemma TakenHas(
    e: Exposure, always: seq<string>, taken: seq<string>, selected: seq<string>, ks: seq<nat>, name: string)
    requires e.Progressive? && Below(ks, |selected|)
    requires |taken| == (if Room(e, always) < |ks| then Room(e, always) else |ks|)
    requires forall m | 0 <= m < |taken| :: taken[m] == selected[ks[m]]
    ensures name in taken <==> exists m :: 0 <= m < |ks| && |always| + m < e.maxTools && selected[ks[m]] == name
  {
    if name in taken {
      var m :| 0 <= m < |taken| && taken[m] == name;
      assert selected[ks[m]] == name;
    }
    if m :| 0 <= m < |ks| && |always| + m < e.maxTools && selected[ks[m]] == name {
      assert taken[m] == name;
    }
  }
}
