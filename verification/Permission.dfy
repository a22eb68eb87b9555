/**
 Permission policies (src/Permission.ts): three-valued decisions merged conservatively, rules and carve-outs,
 remembered grants, and the description a policy is re-created from. What a regular expression or a function
 matches, and what a hand-written policy decides, is arbitrary.
 */
module Permission {
  import opened Base
  import opened Text

  // ------------------------------------------------------------------ decisions

  datatype Decision = Allow | Ask(reason: Option<string>) | Deny(reason: Option<string>)

  function Severity(d: Decision): nat {
    match d case Allow => 0 case Ask(_) => 1 case Deny(_) => 2
  }

  /** One step of `combine`. */
  function Stricter(result: Decision, decision: Decision): Decision {
    if Severity(decision) > Severity(result) then decision else result
  }

  function Combine(first: Decision, rest: seq<Decision>): Decision
    decreases |rest|
  {
    if rest == [] then first else Combine(Stricter(first, rest[0]), rest[1..])
  }

  /** `ds[i]` is the first of the most restrictive. */
  predicate FirstStrictestAt(ds: seq<Decision>, i: nat) {
    && i < |ds|
    && (forall j | 0 <= j < |ds| :: Severity(ds[j]) <= Severity(ds[i]))
    && (forall j | 0 <= j < i :: Severity(ds[j]) < Severity(ds[i]))
  }

  /** The most restrictive decision wins, and the first one at that level supplies the reason. */
  lemma {:induction false} CombineIsFirstStrictest(first: Decision, rest: seq<Decision>) returns (i: nat)
    ensures FirstStrictestAt([first] + rest, i) && ([first] + rest)[i] == Combine(first, rest)
    decreases |rest|
  {
    if rest == [] {
      i := 0;
    } else {
      var shorter := [Stricter(first, rest[0])] + rest[1..];
      var k := CombineIsFirstStrictest(Stricter(first, rest[0]), rest[1..]);
      var all := [first] + rest;
      assert forall j | 1 <= j < |shorter| :: shorter[j] == all[j + 1];
      i := if k > 0 then k + 1 else if Severity(rest[0]) > Severity(first) then 1 else 0;
      forall j | 0 <= j < |all|
        ensures Severity(all[j]) <= Severity(all[i]) && (j < i ==> Severity(all[j]) < Severity(all[i]))
      {
        if j >= 2 { assert all[j] == shorter[j - 1]; }
        assert Severity(all[0]) <= Severity(shorter[0]) && Severity(all[1]) <= Severity(shorter[0]);
      }
    }
  }

  lemma CombineSeverity(first: Decision, rest: seq<Decision>)
    ensures Severity(first) <= Severity(Combine(first, rest))
    ensures forall d | d in rest :: Severity(d) <= Severity(Combine(first, rest))
    ensures Combine(first, rest) == first || Combine(first, rest) in rest
  {
    var i := CombineIsFirstStrictest(first, rest);
    var all := [first] + rest;
    assert all[0] == first;
    forall d | d in rest ensures Severity(d) <= Severity(Combine(first, rest)) {
      var j :| 0 <= j < |rest| && rest[j] == d;
      assert all[j + 1] == d;
    }
  }

  /** No decision loosens the merge: it is monotone in each of its parts. */
  lemma CombineMonotone(first: Decision, rest: seq<Decision>, first': Decision, rest': seq<Decision>)
    requires Severity(first) <= Severity(first') && |rest| == |rest'|
    requires forall i | 0 <= i < |rest| :: Severity(rest[i]) <= Severity(rest'[i])
    ensures Severity(Combine(first, rest)) <= Severity(Combine(first', rest'))
  {
    CombineSeverity(first, rest);
    CombineSeverity(first', rest');
    if Combine(first, rest) != first {
      var i :| 0 <= i < |rest| && rest[i] == Combine(first, rest);
      assert rest'[i] in rest';
    }
  }

  /** `combine`, as it loops. */
  method CombineAll(first: Decision, rest: seq<Decision>) returns (result: Decision)
    ensures result == Combine(first, rest)
  {
    result := first;
    for i := 0 to |rest|
      invariant Combine(result, rest[i..]) == Combine(first, rest)
    {
      assert rest[i..][0] == rest[i] && rest[i..][1..] == rest[i + 1..];
      if Severity(rest[i]) > Severity(result) { result := rest[i]; }
    }
  }

  // ------------------------------------------------------ requests and matchers

  /** One invocation; `context` stands for what only hand-written policies read of it. */
  datatype Request = Request(tool: string, action: string, resource: string, context: nat)

  /** A literal string, a regular expression, or a function of the program's. */
  datatype Matcher = Literal(text: string) | Pattern(source: string, flags: string) | Function(name: nat)

  /** What this module does not know: regular expressions, and the program's own functions. */
  datatype Oracle = Oracle(
    compiles: (string, string) -> bool,
    test: (string, string, string) -> bool,
    call: (nat, string) -> bool,
    decide: (nat, Request) -> Decision)

  /** The flags that change what matches: all but `g` and `y`. */
  function MatchingFlags(flags: string): string {
    if flags == [] then []
    else (if flags[0] == 'g' || flags[0] == 'y' then [] else [flags[0]]) + MatchingFlags(flags[1..])
  }

  /** A pattern's `lastIndex` plays no part: the test is of a fresh expression without `g` and `y`. */
  predicate Matches(o: Oracle, matcher: Option<Matcher>, value: string) {
    match matcher
    case None => true
    case Some(Literal(text)) => text == value
    case Some(Pattern(source, flags)) => o.test(source, MatchingFlags(flags), value)
    case Some(Function(name)) => o.call(name, value)
  }

  datatype Rule = Rule(action: Option<Matcher>, resource: Option<Matcher>, tool: Option<Matcher>, decision: Decision)

  predicate Applies(o: Oracle, rule: Rule, r: Request) {
    Matches(o, rule.action, r.action) && Matches(o, rule.resource, r.resource) && Matches(o, rule.tool, r.tool)
  }

  /** The decisions of the rules that match, in the order of the list. */
  function Matching(o: Oracle, list: seq<Rule>, r: Request): seq<Decision> {
    if list == [] then []
    else (if Applies(o, list[0], r) then [list[0].decision] else []) + Matching(o, list[1..], r)
  }

  /** What the matching rules decide between them, if any matches. */
  function Covered(o: Oracle, list: seq<Rule>, r: Request): Option<Decision> {
    var ds := Matching(o, list, r);
    if ds == [] then None else Some(Combine(ds[0], ds[1..]))
  }

  lemma {:induction false} CombineSnoc(first: Decision, rest: seq<Decision>, d: Decision)
    ensures Combine(first, rest + [d]) == Stricter(Combine(first, rest), d)
    decreases |rest|
  {
    if rest == [] {
      assert (rest + [d])[1..] == [];
    } else {
      assert (rest + [d])[1..] == rest[1..] + [d];
      CombineSnoc(Stricter(first, rest[0]), rest[1..], d);
    }
  }

  lemma {:induction false} MatchingSnoc(o: Oracle, list: seq<Rule>, rule: Rule, r: Request)
    ensures Matching(o, list + [rule], r)
         == Matching(o, list, r) + (if Applies(o, rule, r) then [rule.decision] else [])
  {
    if list == [] {
      assert (list + [rule])[1..] == [];
    } else {
      assert (list + [rule])[1..] == list[1..] + [rule];
      MatchingSnoc(o, list[1..], rule, r);
    }
  }

  /** One more rule, at the end of the list. */
  lemma CoveredSnoc(o: Oracle, list: seq<Rule>, rule: Rule, r: Request)
    ensures var c := Covered(o, list, r);
            Covered(o, list + [rule], r) ==
              if !Applies(o, rule, r) then c
              else Some(if c.None? then rule.decision else Combine(c.value, [rule.decision]))
  {
    MatchingSnoc(o, list, rule, r);
    var before := Matching(o, list, r);
    if !Applies(o, rule, r) {
      assert before + [] == before;
    } else if before == [] {
      assert before + [rule.decision] == [rule.decision];
    } else {
      assert (before + [rule.decision])[1..] == before[1..] + [rule.decision];
      CombineSnoc(before[0], before[1..], rule.decision);
      assert Combine(Stricter(Combine(before[0], before[1..]), rule.decision), [rule.decision][1..])
          == Stricter(Combine(before[0], before[1..]), rule.decision);
    }
  }

  /** The loop `rules` and `except` share. */
  method MatchRules(o: Oracle, list: seq<Rule>, r: Request) returns (decision: Option<Decision>)
    ensures decision == Covered(o, list, r)
  {
    decision := None;
    for i := 0 to |list|
      invariant decision == Covered(o, list[..i], r)
    {
      var rule := list[i];
      assert list[..i + 1] == list[..i] + [rule];
      CoveredSnoc(o, list[..i], rule, r);
      if Applies(o, rule, r) {
        if decision.None? {
          decision := Some(rule.decision);
        } else {
          var merged := CombineAll(decision.value, [rule.decision]);
          decision := Some(merged);
        }
      }
    }
    assert list[..|list|] == list;
  }

  lemma {:induction false} MatchingHolds(o: Oracle, list: seq<Rule>, r: Request, d: Decision)
    ensures d in Matching(o, list, r) <==> exists rule :: rule in list && Applies(o, rule, r) && rule.decision == d
  {
    if list != [] {
      MatchingHolds(o, list[1..], r, d);
      assert forall rule :: rule in list <==> rule == list[0] || rule in list[1..];
      if Applies(o, list[0], r) && list[0].decision == d { assert list[0] in list; }
    }
  }

  /**
   A rule list can be read in any order: however it is rearranged, the same requests are covered, at the
   same level. A deny anywhere is a deny, an ask anywhere at least an ask.
   */
  lemma RulesReadInAnyOrder(o: Oracle, list: seq<Rule>, other: seq<Rule>, r: Request)
    requires forall rule :: rule in list <==> rule in other
    ensures Covered(o, list, r).Some? <==> Covered(o, other, r).Some?
    ensures Covered(o, list, r).Some? ==> Severity(Covered(o, list, r).value) == Severity(Covered(o, other, r).value)
  {
    forall d ensures d in Matching(o, list, r) <==> d in Matching(o, other, r) {
      MatchingHolds(o, list, r, d);
      MatchingHolds(o, other, r, d);
    }
    var xs, ys := Matching(o, list, r), Matching(o, other, r);
    if xs != [] { assert xs[0] in ys; }
    if ys != [] { assert ys[0] in xs; }
    if xs != [] {
      SameSeverity(xs, ys);
    }
  }

  lemma SameSeverity(xs: seq<Decision>, ys: seq<Decision>)
    requires xs != [] && ys != [] && forall d :: d in xs <==> d in ys
    ensures Severity(Combine(xs[0], xs[1..])) == Severity(Combine(ys[0], ys[1..]))
  {
    StrictestOf(xs);
    StrictestOf(ys);
  }

  lemma StrictestOf(ds: seq<Decision>)
    requires ds != []
    ensures Combine(ds[0], ds[1..]) in ds
    ensures forall d | d in ds :: Severity(d) <= Severity(Combine(ds[0], ds[1..]))
  {
    CombineSeverity(ds[0], ds[1..]);
    assert ds == [ds[0]] + ds[1..];
  }

  // ------------------------------------------------------------------- policies

  /** `cell` is a remembered policy's own grant set. */
  datatype Policy =
    | AllowAll
    | AskAll
    | DenyAll
    | Rules(list: seq<Rule>, otherwise: Decision)
    | All(policies: seq<Policy>)
    | Except(base: Policy, exceptions: seq<Rule>)
    | Remembered(inner: Policy, cell: nat)
    | Custom(name: nat)

  type Grants = map<nat, set<string>>

  function Held(g: Grants, cell: nat): set<string> {
    if cell in g then g[cell] else {}
  }

  /** Length-prefixed, so that no text can imitate another field's end. */
  function Prefixed(part: string): string {
    Decimal(|part|) + ":" + part
  }

  function GrantKey(r: Request): string {
    Prefixed(r.tool) + Prefixed(r.action) + Prefixed(r.resource)
  }

  function Granted(decision: Decision, held: set<string>, r: Request): Decision {
    if decision.Ask? && GrantKey(r) in held then Allow else decision
  }

  function Evaluate(o: Oracle, p: Policy, g: Grants, r: Request): Decision
    decreases p, 0
  {
    match p
    case AllowAll => Allow
    case AskAll => Ask(None)
    case DenyAll => Deny(None)
    case Rules(list, otherwise) => var c := Covered(o, list, r); if c.Some? then c.value else otherwise
    case All(policies) => Combine(Allow, EvaluateEach(o, policies, g, r))
    case Except(base, exceptions) =>
      var c := Covered(o, exceptions, r);
      if c.Some? then c.value else Evaluate(o, base, g, r)
    case Remembered(inner, cell) => Granted(Evaluate(o, inner, g, r), Held(g, cell), r)
    case Custom(name) => o.decide(name, r)
  }

  function EvaluateEach(o: Oracle, ps: seq<Policy>, g: Grants, r: Request): (ds: seq<Decision>)
    ensures |ds| == |ps|
    decreases ps, 1
  {
    if ps == [] then [] else [Evaluate(o, ps[0], g, r)] + EvaluateEach(o, ps[1..], g, r)
  }

  /** A grant reaches every remembered policy an answer passes through, and no other. */
  function Remember(p: Policy, g: Grants, r: Request): Grants
    decreases p, 0
  {
    match p
    case All(policies) => RememberEach(policies, g, r)
    case Except(base, _) => Remember(base, g, r)
    case Remembered(inner, cell) => Remember(inner, g[cell := Held(g, cell) + {GrantKey(r)}], r)
    case _ => g
  }

  function RememberEach(ps: seq<Policy>, g: Grants, r: Request): Grants
    decreases ps, 1
  {
    if ps == [] then g else RememberEach(ps[1..], Remember(ps[0], g, r), r)
  }

  lemma {:induction false} EachAt(o: Oracle, ps: seq<Policy>, g: Grants, r: Request, i: nat)
    requires i < |ps|
    ensures EvaluateEach(o, ps, g, r)[i] == Evaluate(o, ps[i], g, r)
    decreases |ps|
  {
    if i > 0 { EachAt(o, ps[1..], g, r, i - 1); }
  }

  /** The policies of a program in the course of a run, with the grant sets they update in place. */
  class Desk {
    const oracle: Oracle
    var grants: Grants

    constructor (o: Oracle)
      ensures oracle == o && grants == map[]
    {
      oracle := o;
      grants := map[];
    }

    method Decide(p: Policy, r: Request) returns (d: Decision)
      ensures d == Evaluate(oracle, p, grants, r)
      decreases p, 0
    {
      match p {
        case AllowAll => d := Allow;
        case AskAll => d := Ask(None);
        case DenyAll => d := Deny(None);
        case Rules(list, otherwise) =>
          var covered := MatchRules(oracle, list, r);
          d := if covered.Some? then covered.value else otherwise;
        case All(policies) =>
          var decisions := DecideEach(policies, r);
          d := CombineAll(Allow, decisions);
        case Except(base, exceptions) =>
          var covered := MatchRules(oracle, exceptions, r);
          if covered.Some? { d := covered.value; } else { d := Decide(base, r); }
        case Remembered(inner, cell) =>
          d := Decide(inner, r);
          if d.Ask? && GrantKey(r) in Held(grants, cell) { d := Allow; }
        case Custom(name) => d := oracle.decide(name, r);
      }
    }

    method DecideEach(ps: seq<Policy>, r: Request) returns (ds: seq<Decision>)
      ensures ds == EvaluateEach(oracle, ps, grants, r)
      decreases ps, 1
    {
      ds := [];
      for i := 0 to |ps|
        invariant |ds| == i
        invariant forall j | 0 <= j < i :: ds[j] == Evaluate(oracle, ps[j], grants, r)
      {
        var d := Decide(ps[i], r);
        ds := ds + [d];
      }
      forall j | 0 <= j < |ps| ensures ds[j] == EvaluateEach(oracle, ps, grants, r)[j] {
        EachAt(oracle, ps, grants, r, j);
      }
    }

    method Record(p: Policy, r: Request)
      modifies this`grants
      ensures grants == Remember(p, old(grants), r)
      decreases p, 0
    {
      match p {
        case All(policies) => RecordEach(policies, r);
        case Except(base, _) => Record(base, r);
        case Remembered(inner, cell) =>
          grants := grants[cell := Held(grants, cell) + {GrantKey(r)}];
          Record(inner, r);
        case _ =>
      }
    }

    method RecordEach(ps: seq<Policy>, r: Request)
      modifies this`grants
      ensures grants == RememberEach(ps, old(grants), r)
      decreases ps, 1
    {
      for i := 0 to |ps|
        invariant RememberEach(ps[i..], grants, r) == RememberEach(ps, old(grants), r)
      {
        assert ps[i..][0] == ps[i] && ps[i..][1..] == ps[i + 1..];
        Record(ps[i], r);
      }
    }
  }
}
