/** What remembering an answer changes, over any run of questions and answers (src/Permission.ts:417-467). */
module PermissionGrants {
  import opened Permission
  import opened Text

  // ---------------------------------------------------------- keys are injective

  /** Whatever follows, a length-prefixed part is read back, and nothing of what follows it. */
  lemma PrefixedReadsBack(a: string, x: string, b: string, y: string)
    requires Prefixed(a) + x == Prefixed(b) + y
    ensures a == b && x == y
  {
    var m, n := Decimal(|a|), Decimal(|b|);
    var s := Prefixed(a) + x;
    DecimalDigits(|a|);
    DecimalDigits(|b|);
    assert s[|m|] == ':' && s[|n|] == ':';
    assert m == s[..|m|] && n == s[..|n|];
    DecimalInjective(|a|, |b|);
    assert a == s[|m| + 1..|m| + 1 + |a|] && b == s[|n| + 1..|n| + 1 + |b|];
    assert x == s[|m| + 1 + |a|..] && y == s[|n| + 1 + |b|..];
  }

  predicate SameTriple(q: Request, r: Request) {
    q.tool == r.tool && q.action == r.action && q.resource == r.resource
  }

  /** MAIN: two requests share a grant exactly when they share tool, action and resource, whatever the text. */
  lemma KeyIsTheTriple(q: Request, r: Request)
    ensures GrantKey(q) == GrantKey(r) <==> SameTriple(q, r)
  {
    if GrantKey(q) == GrantKey(r) {
      Associates(Prefixed(q.tool), Prefixed(q.action), Prefixed(q.resource));
      Associates(Prefixed(r.tool), Prefixed(r.action), Prefixed(r.resource));
      PartsReadBack(q.tool, q.action, q.resource, r.tool, r.action, r.resource);
    }
  }

  lemma Associates(x: string, y: string, z: string)
    ensures (x + y) + z == x + (y + z) && z + [] == z
  {
  }

  lemma PartsReadBack(a: string, b: string, c: string, x: string, y: string, z: string)
    requires Prefixed(a) + (Prefixed(b) + Prefixed(c)) == Prefixed(x) + (Prefixed(y) + Prefixed(z))
    ensures a == x && b == y && c == z
  {
    PrefixedReadsBack(a, Prefixed(b) + Prefixed(c), x, Prefixed(y) + Prefixed(z));
    PrefixedReadsBack(b, Prefixed(c), y, Prefixed(z));
    Associates([], [], Prefixed(c));
    Associates([], [], Prefixed(z));
    PrefixedReadsBack(c, [], z, []);
  }

  // ---------------------------------------------------------- runs of answers

  /** The grants after `rs` have each been answered "always" through `p`. */
  function After(p: Policy, rs: seq<Request>): Grants
    decreases |rs|
  {
    if rs == [] then map[] else Remember(p, After(p, rs[..|rs| - 1]), rs[|rs| - 1])
  }

  /** `remember` through `p` reaches the remembered policy with this cell. */
  predicate Reaches(p: Policy, cell: nat)
    decreases p
  {
    match p
    case All(policies) => exists i | 0 <= i < |policies| :: Reaches(policies[i], cell)
    case Except(base, _) => Reaches(base, cell)
    case Remembered(inner, own) => own == cell || Reaches(inner, cell)
    case _ => false
  }

  lemma {:induction false} RememberHolds(p: Policy, g: Grants, r: Request, cell: nat)
    ensures Held(Remember(p, g, r), cell) == Held(g, cell) + (if Reaches(p, cell) then {GrantKey(r)} else {})
    decreases p, 0
  {
    match p {
      case All(policies) => RememberEachHolds(policies, g, r, cell);
      case Except(base, _) => RememberHolds(base, g, r, cell);
      case Remembered(inner, own) => RememberHolds(inner, g[own := Held(g, own) + {GrantKey(r)}], r, cell);
      case _ =>
    }
  }

  lemma {:induction false} RememberEachHolds(ps: seq<Policy>, g: Grants, r: Request, cell: nat)
    ensures Held(RememberEach(ps, g, r), cell)
         == Held(g, cell) + (if exists i | 0 <= i < |ps| :: Reaches(ps[i], cell) then {GrantKey(r)} else {})
    decreases ps, 1
  {
    if ps != [] {
      RememberHolds(ps[0], g, r, cell);
      RememberEachHolds(ps[1..], Remember(ps[0], g, r), r, cell);
      if i :| 0 <= i < |ps| && Reaches(ps[i], cell) {
        assert i > 0 ==> ps[1..][i - 1] == ps[i];
      }
      if i :| 0 <= i < |ps[1..]| && Reaches(ps[1..][i], cell) {
        assert ps[i + 1] == ps[1..][i];
      }
    }
  }

  lemma {:induction false} RunHolds(p: Policy, rs: seq<Request>, cell: nat, key: string)
    ensures key in Held(After(p, rs), cell) <==> Reaches(p, cell) && exists i :: 0 <= i < |rs| && GrantKey(rs[i]) == key
    decreases |rs|
  {
    if rs != [] {
      var most := rs[..|rs| - 1];
      RunHolds(p, most, cell, key);
      RememberHolds(p, After(p, most), rs[|rs| - 1], cell);
      if i :| 0 <= i < |rs| && GrantKey(rs[i]) == key {
        assert i < |rs| - 1 ==> most[i] == rs[i];
      }
      if i :| 0 <= i < |most| && GrantKey(most[i]) == key {
        assert rs[i] == most[i];
      }
    }
  }

  /** `r` was answered "always": a request with its tool, action and resource was. */
  predicate Answered(rs: seq<Request>, r: Request) {
    exists i :: 0 <= i < |rs| && SameTriple(rs[i], r)
  }

  lemma AnsweredIsHeld(p: Policy, rs: seq<Request>, cell: nat, r: Request)
    ensures GrantKey(r) in Held(After(p, rs), cell) <==> Reaches(p, cell) && Answered(rs, r)
  {
    RunHolds(p, rs, cell, GrantKey(r));
    forall i | 0 <= i < |rs| ensures GrantKey(rs[i]) == GrantKey(r) <==> SameTriple(rs[i], r) {
      KeyIsTheTriple(rs[i], r);
    }
  }

  /**
   MAIN: grants are exact. After any run of answers, a remembered policy differs from what it wraps only by
   turning an ask into an allow, and only for the tool, action and resource of an answer.
   */
  lemma GrantsAreExact(o: Oracle, inner: Policy, cell: nat, rs: seq<Request>, r: Request)
    ensures var p := Remembered(inner, cell);
            var base := Evaluate(o, inner, After(p, rs), r);
            Evaluate(o, p, After(p, rs), r) == if base.Ask? && Answered(rs, r) then Allow else base
  {
    AnsweredIsHeld(Remembered(inner, cell), rs, cell, r);
  }

  /** MAIN: a request no answer was given for is decided, by the whole policy, as if none had been given. */
  lemma UnansweredIsUnchanged(o: Oracle, p: Policy, rs: seq<Request>, r: Request)
    requires !Answered(rs, r)
    ensures Evaluate(o, p, After(p, rs), r) == Evaluate(o, p, map[], r)
  {
    forall cell ensures GrantKey(r) !in Held(After(p, rs), cell) { AnsweredIsHeld(p, rs, cell, r); }
    UngrantedIsUnchanged(o, p, After(p, rs), r);
  }

  lemma {:induction false} UngrantedIsUnchanged(o: Oracle, p: Policy, g: Grants, r: Request)
    requires forall cell :: GrantKey(r) !in Held(g, cell)
    ensures Evaluate(o, p, g, r) == Evaluate(o, p, map[], r)
    decreases p
  {
    match p {
      case All(policies) =>
        forall i | 0 <= i < |policies|
          ensures EvaluateEach(o, policies, g, r)[i] == EvaluateEach(o, policies, map[], r)[i]
        {
          UngrantedIsUnchanged(o, policies[i], g, r);
          EachAt(o, policies, g, r, i);
          EachAt(o, policies, map[], r, i);
        }
        assert EvaluateEach(o, policies, g, r) == EvaluateEach(o, policies, map[], r);
      case Except(base, _) => UngrantedIsUnchanged(o, base, g, r);
      case Remembered(inner, cell) =>
        UngrantedIsUnchanged(o, inner, g, r);
        assert GrantKey(r) !in Held(g, cell);
      case _ =>
    }
  }

  // ---------------------------------------------------------- grants only loosen

  ghost predicate AtMost(g: Grants, h: Grants) {
    forall cell :: Held(g, cell) <= Held(h, cell)
  }

  /** MAIN: more grants are never stricter -- through every conjunction and carve-out. */
  lemma {:induction false} GrantsOnlyLoosen(o: Oracle, p: Policy, g: Grants, h: Grants, r: Request)
    requires AtMost(g, h)
    ensures Severity(Evaluate(o, p, h, r)) <= Severity(Evaluate(o, p, g, r))
    decreases p
  {
    match p {
      case All(policies) =>
        forall i | 0 <= i < |policies|
          ensures Severity(EvaluateEach(o, policies, h, r)[i]) <= Severity(EvaluateEach(o, policies, g, r)[i])
        {
          GrantsOnlyLoosen(o, policies[i], g, h, r);
          EachAt(o, policies, g, r, i);
          EachAt(o, policies, h, r, i);
        }
        CombineMonotone(Allow, EvaluateEach(o, policies, h, r), Allow, EvaluateEach(o, policies, g, r));
      case Except(base, _) => GrantsOnlyLoosen(o, base, g, h, r);
      case Remembered(inner, cell) =>
        GrantsOnlyLoosen(o, inner, g, h, r);
        assert Held(g, cell) <= Held(h, cell);
      case _ =>
    }
  }

  /** Two lists of decisions that deny in the same places, for the same reasons. */
  predicate DenyAlike(ds: seq<Decision>, es: seq<Decision>) {
    |ds| == |es| && forall i | 0 <= i < |ds| && (ds[i].Deny? || es[i].Deny?) :: ds[i] == es[i]
  }

  lemma DeniesCombine(ds: seq<Decision>, es: seq<Decision>)
    requires DenyAlike(ds, es) && Combine(Allow, ds).Deny?
    ensures Combine(Allow, es) == Combine(Allow, ds)
  {
    var i := CombineIsFirstStrictest(Allow, ds);
    var j := CombineIsFirstStrictest(Allow, es);
    var xs, ys := [Allow] + ds, [Allow] + es;
    assert forall k | 1 <= k < |xs| :: xs[k] == ds[k - 1] && ys[k] == es[k - 1];
    assert ys[i] == xs[i];
    assert ys[j].Deny? && ys[j] == xs[j];
  }

  /** MAIN: no grant overrides a no, nor changes its reason: a denial is the same whatever was remembered. */
  lemma {:induction false} DenialStands(o: Oracle, p: Policy, g: Grants, h: Grants, r: Request)
    ensures Evaluate(o, p, g, r).Deny? ==> Evaluate(o, p, h, r) == Evaluate(o, p, g, r)
    decreases p
  {
    match p {
      case All(policies) =>
        var ds, es := EvaluateEach(o, policies, g, r), EvaluateEach(o, policies, h, r);
        forall i | 0 <= i < |ds| && (ds[i].Deny? || es[i].Deny?) ensures ds[i] == es[i] {
          DenialStands(o, policies[i], g, h, r);
          DenialStands(o, policies[i], h, g, r);
          EachAt(o, policies, g, r, i);
          EachAt(o, policies, h, r, i);
        }
        if Combine(Allow, ds).Deny? { DeniesCombine(ds, es); }
      case Except(base, _) => DenialStands(o, base, g, h, r);
      case Remembered(inner, _) => DenialStands(o, inner, g, h, r);
      case _ =>
    }
  }
}
