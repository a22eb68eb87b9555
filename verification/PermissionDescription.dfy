/** A policy as data, and the policy re-created from it (src/Permission.ts:320-359, 512-576). */
module PermissionDescription {
  import opened Base
  import opened Permission
  import opened PermissionGrants

  datatype RuleDescription = RuleDescription(
    action: Option<string>, resource: Option<string>, tool: Option<string>, decision: Decision)

  datatype Description =
    | DAllowAll
    | DAskAll
    | DDenyAll
    | DRules(rules: seq<RuleDescription>, otherwise: Decision)
    | DAll(policies: seq<Description>)
    | DExcept(base: Description, exceptions: seq<RuleDescription>)
    | DRemembered(inner: Description)
    | DCustom

  /** A value, `None`, or a raised `SyntaxError` from a pattern that does not compile. */
  datatype Read<+T> = Got(value: T) | Absent | Raised

  // --------------------------------------------------------------- descriptions

  function DescribeMatcher(m: Option<Matcher>): Option<string> {
    match m
    case None => None
    case Some(Literal(text)) => Some(text)
    case Some(Function(_)) => Some("function")
    case Some(Pattern(source, flags)) =>
      var kept := MatchingFlags(flags);
      Some(if kept == "" then "regexp:" + source else "regexp/" + kept + ":" + source)
  }

  function DescribeRule(rule: Rule): RuleDescription {
    RuleDescription(
      DescribeMatcher(rule.action), DescribeMatcher(rule.resource), DescribeMatcher(rule.tool), rule.decision)
  }

  function DescribeRules(list: seq<Rule>): (ds: seq<RuleDescription>)
    ensures |ds| == |list| && forall i | 0 <= i < |ds| :: ds[i] == DescribeRule(list[i])
  {
    seq(|list|, i requires 0 <= i < |list| => DescribeRule(list[i]))
  }

  function Describe(p: Policy): Description
    decreases p
  {
    match p
    case AllowAll => DAllowAll
    case AskAll => DAskAll
    case DenyAll => DDenyAll
    case Rules(list, otherwise) => DRules(DescribeRules(list), otherwise)
    case All(policies) => DAll(seq(|policies|, i requires 0 <= i < |policies| => Describe(policies[i])))
    case Except(base, exceptions) => DExcept(Describe(base), DescribeRules(exceptions))
    case Remembered(inner, _) => DRemembered(Describe(inner))
    case Custom(_) => DCustom
  }

  // ------------------------------------------------------------------ re-creation

  predicate Lower(c: char) {
    'a' <= c <= 'z'
  }

  /** How many of a text's first characters are lower-case letters. */
  function Run(s: string): (n: nat)
    ensures n <= |s| && (forall i | 0 <= i < n :: Lower(s[i])) && (n < |s| ==> !Lower(s[n]))
  {
    if s == [] || !Lower(s[0]) then 0 else 1 + Run(s[1..])
  }

  const PLAIN := "regexp:"
  const FLAGGED := "regexp/"

  /** `/^regexp\/([a-z]*):/` matches. */
  predicate ReadsFlags(s: string) {
    FLAGGED <= s && var rest := s[|FLAGGED|..]; Run(rest) < |rest| && rest[Run(rest)] == ':'
  }

  function Compiled(o: Oracle, source: string, flags: string): Read<Option<Matcher>> {
    if o.compiles(source, flags) then Got(Some(Pattern(source, flags))) else Raised
  }

  function MatcherFrom(o: Oracle, described: Option<string>): Read<Option<Matcher>> {
    if described.None? then Got(None)
    else
      var s := described.value;
      if s == "function" then Absent
      else if ReadsFlags(s) then
        var rest := s[|FLAGGED|..];
        Compiled(o, rest[Run(rest) + 1..], rest[..Run(rest)])
      else if PLAIN <= s then Compiled(o, s[|PLAIN|..], "")
      else Got(Some(Literal(s)))
  }

  /** The three matchers are all read before any is found missing. */
  function RuleFrom(o: Oracle, d: RuleDescription): Read<Rule> {
    var action, resource, tool := MatcherFrom(o, d.action), MatcherFrom(o, d.resource), MatcherFrom(o, d.tool);
    if action.Raised? || resource.Raised? || tool.Raised? then Raised
    else if action.Absent? || resource.Absent? || tool.Absent? then Absent
    else Got(Rule(action.value, resource.value, tool.value, d.decision))
  }

  /** `Option.all` of a list every element of which has been read. */
  function Join<T>(first: Read<T>, rest: Read<seq<T>>): Read<seq<T>> {
    if first.Raised? || rest.Raised? then Raised
    else if first.Absent? || rest.Absent? then Absent
    else Got([first.value] + rest.value)
  }

  function RulesFrom(o: Oracle, ds: seq<RuleDescription>): Read<seq<Rule>> {
    if ds == [] then Got([]) else Join(RuleFrom(o, ds[0]), RulesFrom(o, ds[1..]))
  }

  function FromDescription(o: Oracle, d: Description): Read<Policy>
    decreases d, 0
  {
    match d
    case DAllowAll => Got(AllowAll)
    case DAskAll => Got(AskAll)
    case DDenyAll => Got(DenyAll)
    case DRules(rules, otherwise) =>
      (match RulesFrom(o, rules)
       case Got(list) => Got(Rules(list, otherwise)) case Absent => Absent case Raised => Raised)
    case DAll(policies) =>
      (match FromEach(o, policies) case Got(ps) => Got(All(ps)) case Absent => Absent case Raised => Raised)
    case DExcept(base, exceptions) =>
      (match FromDescription(o, base)
       case Got(b) =>
         (match RulesFrom(o, exceptions)
          case Got(list) => Got(Except(b, list)) case Absent => Absent case Raised => Raised)
       case Absent => Absent
       case Raised => Raised)
    case DRemembered(inner) => FromDescription(o, inner)
    case DCustom => Absent
  }

  function FromEach(o: Oracle, ds: seq<Description>): Read<seq<Policy>>
    decreases ds, 1
  {
    if ds == [] then Got([]) else Join(FromDescription(o, ds[0]), FromEach(o, ds[1..]))
  }

  // --------------------------------------------------- what survives the round trip

  /** A literal the description cannot tell from a function or a pattern. */
  predicate Misread(text: string) {
    text == "function" || ReadsFlags(text) || PLAIN <= text
  }

  predicate Readable(m: Option<Matcher>) {
    match m
    case Some(Literal(text)) => !Misread(text)
    case Some(Function(_)) => false
    case _ => true
  }

  /** A pattern without the flags that change nothing. */
  function BareMatcher(m: Option<Matcher>): Option<Matcher> {
    match m
    case Some(Pattern(source, flags)) => Some(Pattern(source, MatchingFlags(flags)))
    case _ => m
  }

  /** A pattern is an expression that compiled, with letters for flags. */
  predicate WellFormed(o: Oracle, m: Option<Matcher>) {
    m.Some? && m.value.Pattern? ==>
      o.compiles(m.value.source, MatchingFlags(m.value.flags)) && forall c | c in m.value.flags :: Lower(c)
  }

  lemma {:induction false} FlagsAreLower(flags: string)
    requires forall c | c in flags :: Lower(c)
    ensures forall i | 0 <= i < |MatchingFlags(flags)| :: Lower(MatchingFlags(flags)[i])
  {
    if flags != [] { FlagsAreLower(flags[1..]); }
  }

  lemma {:induction false} RunStops(flags: string, rest: string)
    requires forall i | 0 <= i < |flags| :: Lower(flags[i])
    ensures Run(flags + ":" + rest) == |flags|
  {
    var s := flags + ":" + rest;
    assert s[|flags|] == ':';
    assert forall i | 0 <= i < |flags| :: Lower(s[i]);
    assert !Lower(s[|flags|]);
  }

  lemma PatternReadsBack(o: Oracle, source: string, flags: string)
    requires WellFormed(o, Some(Pattern(source, flags)))
    ensures MatcherFrom(o, DescribeMatcher(Some(Pattern(source, flags))))
        == Got(Some(Pattern(source, MatchingFlags(flags))))
  {
    var kept := MatchingFlags(flags);
    var s := DescribeMatcher(Some(Pattern(source, flags))).value;
    if kept == "" {
      assert s[6] == ':' && FLAGGED[6] == '/';
      assert PLAIN <= s && s[|PLAIN|..] == source;
    } else {
      FlagsAreLower(flags);
      RunStops(kept, source);
      var rest := s[|FLAGGED|..];
      assert FLAGGED <= s && rest == kept + ":" + source;
      assert rest[..|kept|] == kept && rest[|kept| + 1..] == source;
      assert s[6] == '/' && "function"[6] == 'o';
    }
  }

  /** A matcher comes back as it was, but for flags that change nothing, exactly when it is readable. */
  lemma MatcherReadsBackIff(o: Oracle, m: Option<Matcher>)
    requires WellFormed(o, m)
    ensures MatcherFrom(o, DescribeMatcher(m)) == Got(BareMatcher(m)) <==> Readable(m)
  {
    match m {
      case Some(Pattern(source, flags)) => PatternReadsBack(o, source, flags);
      case _ =>
    }
  }

  predicate RuleReadable(rule: Rule) {
    Readable(rule.action) && Readable(rule.resource) && Readable(rule.tool)
  }

  predicate RuleWellFormed(o: Oracle, rule: Rule) {
    WellFormed(o, rule.action) && WellFormed(o, rule.resource) && WellFormed(o, rule.tool)
  }

  function BareRule(rule: Rule): Rule {
    Rule(BareMatcher(rule.action), BareMatcher(rule.resource), BareMatcher(rule.tool), rule.decision)
  }

  function BareRules(list: seq<Rule>): (bare: seq<Rule>)
    ensures |bare| == |list| && forall i | 0 <= i < |bare| :: bare[i] == BareRule(list[i])
  {
    seq(|list|, i requires 0 <= i < |list| => BareRule(list[i]))
  }

  predicate AllReadable(list: seq<Rule>) {
    forall i | 0 <= i < |list| :: RuleReadable(list[i])
  }

  lemma RuleReadsBackIff(o: Oracle, rule: Rule)
    requires RuleWellFormed(o, rule)
    ensures RuleFrom(o, DescribeRule(rule)) == Got(BareRule(rule)) <==> RuleReadable(rule)
  {
    MatcherReadsBackIff(o, rule.action);
    MatcherReadsBackIff(o, rule.resource);
    MatcherReadsBackIff(o, rule.tool);
  }

  lemma RulesCons(list: seq<Rule>)
    requires list != []
    ensures DescribeRules(list)[0] == DescribeRule(list[0]) && DescribeRules(list)[1..] == DescribeRules(list[1..])
    ensures BareRules(list) == [BareRule(list[0])] + BareRules(list[1..])
    ensures AllReadable(list) <==> RuleReadable(list[0]) && AllReadable(list[1..])
  {
    assert forall i | 1 <= i < |list| :: list[i] == list[1..][i - 1];
  }

  lemma {:induction false} RulesReadBackIff(o: Oracle, list: seq<Rule>)
    requires forall i | 0 <= i < |list| :: RuleWellFormed(o, list[i])
    ensures RulesFrom(o, DescribeRules(list)) == Got(BareRules(list)) <==> AllReadable(list)
    decreases |list|
  {
    if list != [] {
      RuleReadsBackIff(o, list[0]);
      RulesReadBackIff(o, list[1..]);
      RulesCons(list);
      JoinIs(RuleFrom(o, DescribeRule(list[0])), RulesFrom(o, DescribeRules(list[1..])),
             BareRule(list[0]), BareRules(list[1..]));
    }
  }

  /** A joined list is read as expected exactly when its first and its rest are. */
  lemma JoinIs<T>(first: Read<T>, rest: Read<seq<T>>, x: T, xs: seq<T>)
    ensures Join(first, rest) == Got([x] + xs) <==> first == Got(x) && rest == Got(xs)
  {
    if first.Got? && rest.Got? {
      assert ([first.value] + rest.value)[0] == first.value && ([first.value] + rest.value)[1..] == rest.value;
      assert ([x] + xs)[0] == x && ([x] + xs)[1..] == xs;
    }
  }

  /** The policy without its grants, and with only the flags that matter. */
  function Bare(p: Policy): Policy
    decreases p
  {
    match p
    case Rules(list, otherwise) => Rules(BareRules(list), otherwise)
    case All(policies) => All(seq(|policies|, i requires 0 <= i < |policies| => Bare(policies[i])))
    case Except(base, exceptions) => Except(Bare(base), BareRules(exceptions))
    case Remembered(inner, _) => Bare(inner)
    case _ => p
  }

  predicate PolicyReadable(p: Policy)
    decreases p
  {
    match p
    case Rules(list, _) => AllReadable(list)
    case All(policies) => forall i | 0 <= i < |policies| :: PolicyReadable(policies[i])
    case Except(base, exceptions) => PolicyReadable(base) && AllReadable(exceptions)
    case Remembered(inner, _) => PolicyReadable(inner)
    case Custom(_) => false
    case _ => true
  }

  predicate PolicyWellFormed(o: Oracle, p: Policy)
    decreases p
  {
    match p
    case Rules(list, _) => forall i | 0 <= i < |list| :: RuleWellFormed(o, list[i])
    case All(policies) => forall i | 0 <= i < |policies| :: PolicyWellFormed(o, policies[i])
    case Except(base, exceptions) =>
      PolicyWellFormed(o, base) && forall i | 0 <= i < |exceptions| :: RuleWellFormed(o, exceptions[i])
    case Remembered(inner, _) => PolicyWellFormed(o, inner)
    case _ => true
  }

  /** The policies of a list, bare, and their descriptions. */
  function BareEach(ps: seq<Policy>): (bare: seq<Policy>)
    ensures |bare| == |ps| && forall i | 0 <= i < |bare| :: bare[i] == Bare(ps[i])
  {
    seq(|ps|, i requires 0 <= i < |ps| => Bare(ps[i]))
  }

  function DescribeEach(ps: seq<Policy>): (ds: seq<Description>)
    ensures |ds| == |ps| && forall i | 0 <= i < |ds| :: ds[i] == Describe(ps[i])
  {
    seq(|ps|, i requires 0 <= i < |ps| => Describe(ps[i]))
  }

  /**
   MAIN: `fromDescription` of a policy's description is that policy, without its grants, exactly when no
   matcher in it is a function or a literal that reads as a pattern or as `function`, and none of it was
   written by hand. Otherwise it is `None`, or raises, or is some other policy.
   */
  lemma {:induction false} PolicyReadsBackIff(o: Oracle, p: Policy)
    requires PolicyWellFormed(o, p)
    ensures FromDescription(o, Describe(p)) == Got(Bare(p)) <==> PolicyReadable(p)
    decreases p, 0
  {
    match p {
      case Rules(list, _) => RulesReadBackIff(o, list);
      case All(policies) =>
        EachReadsBackIff(o, policies);
        assert Describe(p).policies == DescribeEach(policies) && Bare(p).policies == BareEach(policies);
      case Except(base, exceptions) =>
        PolicyReadsBackIff(o, base);
        RulesReadBackIff(o, exceptions);
      case Remembered(inner, _) => PolicyReadsBackIff(o, inner);
      case _ =>
    }
  }

  lemma {:induction false} EachReadsBackIff(o: Oracle, ps: seq<Policy>)
    requires forall i | 0 <= i < |ps| :: PolicyWellFormed(o, ps[i])
    ensures FromEach(o, DescribeEach(ps)) == Got(BareEach(ps)) <==> forall i | 0 <= i < |ps| :: PolicyReadable(ps[i])
    decreases ps, 1
  {
    if ps != [] {
      PolicyReadsBackIff(o, ps[0]);
      EachReadsBackIff(o, ps[1..]);
      assert DescribeEach(ps)[1..] == DescribeEach(ps[1..]);
      assert BareEach(ps) == [Bare(ps[0])] + BareEach(ps[1..]);
      assert (forall i | 0 <= i < |ps| :: PolicyReadable(ps[i]))
        <==> PolicyReadable(ps[0]) && forall i | 0 <= i < |ps[1..]| :: PolicyReadable(ps[1..][i]) by {
        assert forall i | 1 <= i < |ps| :: ps[i] == ps[1..][i - 1];
      }
      JoinIs(FromDescription(o, Describe(ps[0])), FromEach(o, DescribeEach(ps[1..])), Bare(ps[0]), BareEach(ps[1..]));
    }
  }

  // ------------------------------------------------------ and what it then decides

  lemma {:induction false} FlagsAreStripped(flags: string)
    ensures MatchingFlags(MatchingFlags(flags)) == MatchingFlags(flags)
  {
    if flags != [] {
      FlagsAreStripped(flags[1..]);
      var rest := MatchingFlags(flags[1..]);
      if flags[0] == 'g' || flags[0] == 'y' { assert MatchingFlags(flags) == rest; }
      else { assert MatchingFlags(flags)[1..] == rest; }
    }
  }

  lemma BareMatches(o: Oracle, m: Option<Matcher>, value: string)
    ensures Matches(o, BareMatcher(m), value) == Matches(o, m, value)
  {
    if m.Some? && m.value.Pattern? { FlagsAreStripped(m.value.flags); }
  }

  lemma {:induction false} BareMatching(o: Oracle, list: seq<Rule>, r: Request)
    ensures Matching(o, BareRules(list), r) == Matching(o, list, r)
    decreases |list|
  {
    if list != [] {
      BareMatches(o, list[0].action, r.action);
      BareMatches(o, list[0].resource, r.resource);
      BareMatches(o, list[0].tool, r.tool);
      assert BareRules(list)[1..] == BareRules(list[1..]);
      BareMatching(o, list[1..], r);
    }
  }

  /** The bare policy, whatever grants it is given, decides as the policy does before any answer. */
  lemma {:induction false} BareDecides(o: Oracle, p: Policy, g: Grants, r: Request)
    ensures Evaluate(o, Bare(p), g, r) == Evaluate(o, p, map[], r)
    decreases p
  {
    match p {
      case Rules(list, _) => BareMatching(o, list, r);
      case All(policies) =>
        var bare := BareEach(policies);
        assert Bare(p) == All(bare);
        forall i | 0 <= i < |policies|
          ensures EvaluateEach(o, bare, g, r)[i] == EvaluateEach(o, policies, map[], r)[i]
        {
          BareDecides(o, policies[i], g, r);
          EachAt(o, bare, g, r, i);
          EachAt(o, policies, map[], r, i);
        }
        assert EvaluateEach(o, bare, g, r) == EvaluateEach(o, policies, map[], r);
      case Except(base, exceptions) =>
        BareMatching(o, exceptions, r);
        BareDecides(o, base, g, r);
      case Remembered(inner, _) => BareDecides(o, inner, g, r);
      case _ =>
    }
  }

  /** No policy in `p` remembers. */
  predicate Forgetful(p: Policy)
    decreases p
  {
    match p
    case All(policies) => forall i | 0 <= i < |policies| :: Forgetful(policies[i])
    case Except(base, _) => Forgetful(base)
    case Remembered(_, _) => false
    case _ => true
  }

  lemma {:induction false} ForgetfulIgnoresGrants(o: Oracle, p: Policy, g: Grants, r: Request)
    requires Forgetful(p)
    ensures Evaluate(o, p, g, r) == Evaluate(o, p, map[], r)
    decreases p
  {
    match p {
      case All(policies) =>
        forall i | 0 <= i < |policies|
          ensures EvaluateEach(o, policies, g, r)[i] == EvaluateEach(o, policies, map[], r)[i]
        {
          ForgetfulIgnoresGrants(o, policies[i], g, r);
          EachAt(o, policies, g, r, i);
          EachAt(o, policies, map[], r, i);
        }
        assert EvaluateEach(o, policies, g, r) == EvaluateEach(o, policies, map[], r);
      case Except(base, _) => ForgetfulIgnoresGrants(o, base, g, r);
      case _ =>
    }
  }

  /**
   MAIN: what `fromDescription` re-creates decides every request, reason included, as the described policy
   would with no answer remembered; so identically if nothing in it remembers, and otherwise never less
   strictly, whatever had been remembered when it was described.
   */
  lemma ReadBackDecides(o: Oracle, p: Policy, held: Grants, g: Grants, r: Request)
    requires PolicyWellFormed(o, p) && PolicyReadable(p)
    ensures var q := FromDescription(o, Describe(p));
            && q.Got?
            && Evaluate(o, q.value, g, r) == Evaluate(o, p, map[], r)
            && (Forgetful(p) ==> Evaluate(o, q.value, g, r) == Evaluate(o, p, held, r))
            && Severity(Evaluate(o, q.value, g, r)) >= Severity(Evaluate(o, p, held, r))
            && (Evaluate(o, p, held, r).Deny? ==> Evaluate(o, q.value, g, r) == Evaluate(o, p, held, r))
  {
    PolicyReadsBackIff(o, p);
    BareDecides(o, p, g, r);
    if Forgetful(p) { ForgetfulIgnoresGrants(o, p, held, r); }
    assert AtMost(map[], held);
    GrantsOnlyLoosen(o, p, map[], held, r);
    DenialStands(o, p, held, map[], r);
  }

  /** A literal that reads as a pattern: the re-created policy allows what the described one denies. */
  lemma LiteralIsMisread(o: Oracle)
    requires o.compiles("^a", "") && !o.test("^a", "", "regexp:^a")
    ensures var p := Rules([Rule(None, None, Some(Literal("regexp:^a")), Deny(None))], Allow);
            var r := Request("regexp:^a", "", "", 0);
            var q := FromDescription(o, Describe(p));
            Evaluate(o, p, map[], r) == Deny(None) && q.Got? && Evaluate(o, q.value, map[], r) == Allow
  {
    var rule, r := Rule(None, None, Some(Literal("regexp:^a")), Deny(None)), Request("regexp:^a", "", "", 0);
    var read := Rule(None, None, Some(Pattern("^a", "")), Deny(None));
    assert Matching(o, [rule], r) == [Deny(None)] + Matching(o, [rule][1..], r);
    var text := "regexp:^a";
    assert text[6] == ':' && FLAGGED[6] == '/' && PLAIN <= text && text[|PLAIN|..] == "^a";
    assert RuleFrom(o, DescribeRule(rule)) == Got(read);
    var ds := DescribeRules([rule]);
    assert ds[0] == DescribeRule(rule) && ds[1..] == [];
    assert RulesFrom(o, ds) == Join(RuleFrom(o, ds[0]), RulesFrom(o, ds[1..]));
    assert Join(Got(read), Got([])) == Got([read] + []) && [read] + [] == [read];
    assert Matching(o, [read], r) == Matching(o, [read][1..], r);
  }
}
