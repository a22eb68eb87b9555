/**
 What a policy decides, by the places of its rules and parts: which rule of a list is the one that counts, and when an
 exception overrides its base. Nothing here is said by way of how the decision is computed.
 */
module PermissionMeaning {
  import opened Base
  import opened Permission
  import opened Picking

  // ------------------------------------------------------------------ which rules fit

  function IsMatchingFlag(flags: string): nat -> bool {
    (k: nat) => k < |flags| && flags[k] != 'g' && flags[k] != 'y'
  }

  lemma {:induction false} FlagsAt(flags: string) returns (ks: seq<nat>)
    ensures Picked(ks, |flags|, IsMatchingFlag(flags)) && MatchingFlags(flags) == At(flags, ks)
  {
    if flags == [] {
      ks := [];
    } else {
      var kept := flags[0] != 'g' && flags[0] != 'y';
      var rest := FlagsAt(flags[1..]);
      ks := (if kept then [0] else []) + Shifted(rest);
      PickedCons(rest, |flags| - 1, IsMatchingFlag(flags[1..]), IsMatchingFlag(flags), ks);
      AtCons(flags, rest, kept, ks);
    }
  }

  /** An absent matcher fits every value; a pattern is tested without its `g` and `y` flags. */
  ghost predicate Fits(o: Oracle, matcher: Option<Matcher>, value: string) {
    match matcher
    case None => true
    case Some(Literal(text)) => text == value
    case Some(Function(name)) => o.call(name, value)
    case Some(Pattern(source, flags)) =>
      exists ks: seq<nat> :: Picked(ks, |flags|, IsMatchingFlag(flags)) && o.test(source, At(flags, ks), value)
  }

  lemma FitsIff(o: Oracle, matcher: Option<Matcher>, value: string)
    ensures Matches(o, matcher, value) <==> Fits(o, matcher, value)
  {
    if matcher.Some? && matcher.value.Pattern? {
      var flags := matcher.value.flags;
      var ks := FlagsAt(flags);
      forall ls: seq<nat> | Picked(ls, |flags|, IsMatchingFlag(flags)) ensures ls == ks {
        PickedOnce(ls, ks, |flags|, IsMatchingFlag(flags));
      }
    }
  }

  /** The rule's tool, action and resource all fit the request's. */
  ghost predicate RuleFits(o: Oracle, rule: Rule, r: Request) {
    Fits(o, rule.tool, r.tool) && Fits(o, rule.action, r.action) && Fits(o, rule.resource, r.resource)
  }

  lemma AppliesIff(o: Oracle, rule: Rule, r: Request)
    ensures Applies(o, rule, r) <==> RuleFits(o, rule, r)
  {
    FitsIff(o, rule.tool, r.tool);
    FitsIff(o, rule.action, r.action);
    FitsIff(o, rule.resource, r.resource);
  }

  // ----------------------------------------------------------- which rule counts

  /** Rule `i` fits, none that fits is stricter, and none that fits as strict comes before it. */
  ghost predicate Governs(o: Oracle, list: seq<Rule>, r: Request, i: nat) {
    && i < |list| && RuleFits(o, list[i], r)
    && (forall j | 0 <= j < |list| ::
          RuleFits(o, list[j], r) ==> Severity(list[j].decision) <= Severity(list[i].decision))
    && (forall j | 0 <= j < i :: RuleFits(o, list[j], r) ==> Severity(list[j].decision) < Severity(list[i].decision))
  }

  ghost predicate NoneFits(o: Oracle, list: seq<Rule>, r: Request) {
    forall j | 0 <= j < |list| :: !RuleFits(o, list[j], r)
  }

  ghost function FitsAt(o: Oracle, list: seq<Rule>, r: Request): nat -> bool {
    (k: nat) => k < |list| && Applies(o, list[k], r)
  }

  /** These are the decisions of the rules at these places. */
  predicate DecidedAt(list: seq<Rule>, ks: seq<nat>, ds: seq<Decision>) {
    |ds| == |ks| && Below(ks, |list|) && forall i | 0 <= i < |ks| :: ds[i] == list[ks[i]].decision
  }

  lemma DecidedCons(list: seq<Rule>, ks: seq<nat>, ds: seq<Decision>, kept: bool, next: seq<nat>)
    requires list != [] && DecidedAt(list[1..], ks, ds) && next == (if kept then [0] else []) + Shifted(ks)
    ensures DecidedAt(list, next, (if kept then [list[0].decision] else []) + ds)
  {
  }

  lemma {:induction false} MatchingAt(o: Oracle, list: seq<Rule>, r: Request) returns (ks: seq<nat>)
    ensures Picked(ks, |list|, FitsAt(o, list, r)) && DecidedAt(list, ks, Matching(o, list, r))
  {
    if list == [] {
      ks := [];
    } else {
      var kept := Applies(o, list[0], r);
      var rest := MatchingAt(o, list[1..], r);
      ks := (if kept then [0] else []) + Shifted(rest);
      PickedCons(rest, |list| - 1, FitsAt(o, list[1..], r), FitsAt(o, list, r), ks);
      DecidedCons(list, rest, Matching(o, list[1..], r), kept, ks);
    }
  }

  /** The places of the rules that fit, in order. */
  ghost predicate Listed(o: Oracle, list: seq<Rule>, r: Request, ks: seq<nat>) {
    && (forall i, j | 0 <= i < j < |ks| :: ks[i] < ks[j])
    && forall j: nat | j < |list| :: RuleFits(o, list[j], r) <==> j in ks
  }

  lemma ListedBy(o: Oracle, list: seq<Rule>, r: Request) returns (ks: seq<nat>)
    ensures Listed(o, list, r, ks) && DecidedAt(list, ks, Matching(o, list, r))
  {
    ks := MatchingAt(o, list, r);
    forall j: nat | j < |list| ensures RuleFits(o, list[j], r) <==> j in ks {
      AppliesIff(o, list[j], r);
      assert FitsAt(o, list, r)(j) <==> Applies(o, list[j], r);
    }
  }

  /** The rule that counts is the first strictest of those that fit, and there is one unless none fits. */
  lemma CoveredGoverns(o: Oracle, list: seq<Rule>, r: Request) returns (i: nat)
    ensures Covered(o, list, r).None? <==> NoneFits(o, list, r)
    ensures Covered(o, list, r).Some? ==> Governs(o, list, r, i) && Covered(o, list, r).value == list[i].decision
  {
    var ks := ListedBy(o, list, r);
    i := 0;
    if Matching(o, list, r) == [] {
      assert ks == [];
    } else {
      i := FirstCounts(o, list, r, ks, Matching(o, list, r));
    }
  }

  lemma FirstCounts(o: Oracle, list: seq<Rule>, r: Request, ks: seq<nat>, ds: seq<Decision>) returns (i: nat)
    requires Listed(o, list, r, ks) && DecidedAt(list, ks, ds) && ds != []
    ensures Governs(o, list, r, i) && list[i].decision == Combine(ds[0], ds[1..])
  {
    var k := CombineIsFirstStrictest(ds[0], ds[1..]);
    assert [ds[0]] + ds[1..] == ds;
    i := ks[k];
    FirstIsFirst(o, list, r, ks, ds, k);
  }

  lemma FirstIsFirst(o: Oracle, list: seq<Rule>, r: Request, ks: seq<nat>, ds: seq<Decision>, k: nat)
    requires Listed(o, list, r, ks) && DecidedAt(list, ks, ds) && FirstStrictestAt(ds, k)
    ensures Governs(o, list, r, ks[k])
  {
    forall j: nat | j < |list| && RuleFits(o, list[j], r)
      ensures Severity(list[j].decision) <= Severity(ds[k])
      ensures j < ks[k] ==> Severity(list[j].decision) < Severity(ds[k])
    {
      assert j in ks;
      var m :| 0 <= m < |ks| && ks[m] == j;
      assert ds[m] == list[j].decision;
      assert j < ks[k] ==> m < k;
    }
    assert ks[k] in ks;
  }

  lemma OneGoverns(o: Oracle, list: seq<Rule>, r: Request, i: nat, j: nat)
    requires Governs(o, list, r, i) && Governs(o, list, r, j)
    ensures i == j
  {
  }

  lemma CoveredIff(o: Oracle, list: seq<Rule>, r: Request, d: Decision)
    ensures Covered(o, list, r) == Some(d) <==> exists i: nat :: Governs(o, list, r, i) && list[i].decision == d
    ensures Covered(o, list, r).None? <==> NoneFits(o, list, r)
  {
    var k := CoveredGoverns(o, list, r);
    forall i: nat | Governs(o, list, r, i) ensures Covered(o, list, r) == Some(list[i].decision) {
      OneGoverns(o, list, r, i, k);
    }
  }

  // ------------------------------------------------------------- what policies decide

  /**
   MAIN: an exception that fits overrides its base, whatever the base is and whatever has been granted: the first
   strictest of those that fit decides. When none fits, the base decides.
   */
  lemma ExceptIff(o: Oracle, base: Policy, exceptions: seq<Rule>, g: Grants, r: Request, d: Decision)
    ensures Evaluate(o, Except(base, exceptions), g, r) == d <==>
              || (exists i: nat :: Governs(o, exceptions, r, i) && exceptions[i].decision == d)
              || (NoneFits(o, exceptions, r) && Evaluate(o, base, g, r) == d)
  {
    CoveredIff(o, exceptions, r, d);
  }

  /** MAIN: of a rule list the first strictest rule that fits decides, and `otherwise` when none does. */
  lemma RulesIff(o: Oracle, list: seq<Rule>, otherwise: Decision, g: Grants, r: Request, d: Decision)
    ensures Evaluate(o, Rules(list, otherwise), g, r) == d <==>
              || (exists i: nat :: Governs(o, list, r, i) && list[i].decision == d)
              || (NoneFits(o, list, r) && otherwise == d)
  {
    CoveredIff(o, list, r, d);
  }

  /** Policy `i` is stricter than allowing, none is stricter than it, and none as strict comes before it. */
  predicate Prevails(o: Oracle, ps: seq<Policy>, g: Grants, r: Request, i: nat) {
    && i < |ps| && !Evaluate(o, ps[i], g, r).Allow?
    && (forall j | 0 <= j < |ps| :: Severity(Evaluate(o, ps[j], g, r)) <= Severity(Evaluate(o, ps[i], g, r)))
    && (forall j | 0 <= j < i :: Severity(Evaluate(o, ps[j], g, r)) < Severity(Evaluate(o, ps[i], g, r)))
  }

  lemma EvaluatedAt(o: Oracle, ps: seq<Policy>, g: Grants, r: Request, ds: seq<Decision>)
    requires ds == EvaluateEach(o, ps, g, r)
    ensures forall i | 0 <= i < |ps| :: ds[i] == Evaluate(o, ps[i], g, r)
  {
    forall i | 0 <= i < |ps| ensures ds[i] == Evaluate(o, ps[i], g, r) { EachAt(o, ps, g, r, i); }
  }

  /** MAIN: policies taken together allow when every one allows, and otherwise the first strictest decides. */
  lemma AllIff(o: Oracle, ps: seq<Policy>, g: Grants, r: Request, d: Decision)
    ensures Evaluate(o, All(ps), g, r) == d <==>
              || (d.Allow? && forall i | 0 <= i < |ps| :: Evaluate(o, ps[i], g, r).Allow?)
              || (exists i: nat :: Prevails(o, ps, g, r, i) && Evaluate(o, ps[i], g, r) == d)
  {
    var k := AllDecides(o, ps, g, r);
    if k > 0 {
      forall i: nat | Prevails(o, ps, g, r, i) ensures i == k - 1 { OnePrevails(o, ps, g, r, i, k - 1); }
    }
  }

  /** The place of the policy that decides, counting from 1; or 0, when every one allows. */
  lemma AllDecides(o: Oracle, ps: seq<Policy>, g: Grants, r: Request) returns (k: nat)
    ensures k == 0 ==> Evaluate(o, All(ps), g, r).Allow? && forall i | 0 <= i < |ps| :: Evaluate(o, ps[i], g, r).Allow?
    ensures k > 0 ==>
              Prevails(o, ps, g, r, k - 1) && Evaluate(o, All(ps), g, r) == Evaluate(o, ps[k - 1], g, r)
  {
    var ds := EvaluateEach(o, ps, g, r);
    EvaluatedAt(o, ps, g, r, ds);
    k := CombineIsFirstStrictest(Allow, ds);
    var all := [Allow] + ds;
    assert all[0] == Allow && forall j | 0 <= j < |ds| :: all[j + 1] == ds[j];
    forall j | 0 <= j < |ps|
      ensures Severity(ds[j]) <= Severity(all[k]) && (j < k - 1 ==> Severity(ds[j]) < Severity(all[k]))
    {
      assert all[j + 1] == ds[j];
    }
  }

  lemma OnePrevails(o: Oracle, ps: seq<Policy>, g: Grants, r: Request, i: nat, j: nat)
    requires Prevails(o, ps, g, r, i) && Prevails(o, ps, g, r, j)
    ensures i == j
  {
  }

  /** The three plain policies, at the three levels and without a reason; and one written by hand, as it decides. */
  lemma PlainPolicies(o: Oracle, name: nat, g: Grants, r: Request)
    ensures Evaluate(o, Custom(name), g, r) == o.decide(name, r)
    ensures Evaluate(o, AllowAll, g, r) == Allow && Evaluate(o, AskAll, g, r) == Ask(None)
    ensures Evaluate(o, DenyAll, g, r) == Deny(None)
    ensures Severity(Evaluate(o, AllowAll, g, r)) == 0 && Severity(Evaluate(o, AskAll, g, r)) == 1
    ensures Severity(Evaluate(o, DenyAll, g, r)) == 2
  {
  }

  /** An exception that allows undoes a base that denies everything, and one that denies undoes one that allows. */
  lemma ExceptionsOverride(o: Oracle, rule: Rule, g: Grants, r: Request)
    requires RuleFits(o, rule, r)
    ensures Evaluate(o, Except(DenyAll, [rule]), g, r) == Evaluate(o, Except(AllowAll, [rule]), g, r) == rule.decision
  {
    assert Governs(o, [rule], r, 0);
    ExceptIff(o, DenyAll, [rule], g, r, rule.decision);
    ExceptIff(o, AllowAll, [rule], g, r, rule.decision);
  }
}
