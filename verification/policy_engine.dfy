/** The deterministic policy engine: filter, sort, evaluate, aggregate. */
module PolicyEngine {
  import opened Wrappers
  import opened PolicyRules
  import J = JsonCanonical

  datatype Status = FAIL | REVIEW_NEEDED | PASSED

  datatype Outcome = Outcome(ruleId: string, ruleType: RuleType, result: RuleResult)

  /** What the evaluation hash is computed over. */
  datatype PreImage = PreImage(policyId: string, version: nat, rules: seq<Rule>, context: Context, outcomes: seq<(string, RuleResult)>)

  datatype Evaluation = Evaluation(
    status: Status, rulesChecked: seq<(string, RuleResult)>, violations: seq<Outcome>,
    requirements: seq<Outcome>, eventsConsidered: Option<nat>, evaluatedAt: int, hashed: PreImage)

  /** The order of rule ids, as `localeCompare` gives it: "not after". */
  type IdOrder = (string, string) -> bool

  ghost predicate TotalOrder(le: IdOrder) {
    && (forall x, y :: le(x, y) || le(y, x))
    && (forall x, y :: le(x, y) && le(y, x) ==> x == y)
    && (forall x, y, z :: le(x, y) && le(y, z) ==> le(x, z))
  }

  /** The order by characters is one. */
  lemma OrderHypothesisIsConsistent()
    ensures TotalOrder((x, y) => !J.Less(y, x))
  {
    forall x, y ensures J.Less(x, y) || J.Less(y, x) || x == y {
      J.LessIsTotal(x, y);
    }
    forall x, y ensures !(J.Less(x, y) && J.Less(y, x)) {
      J.LessIsStrict(x, y);
    }
    forall x, y, z | !J.Less(y, x) && !J.Less(z, y) ensures !J.Less(z, x) {
      J.LessIsTotal(x, y);
      J.LessIsTotal(y, z);
      if x != y && y != z {
        J.LessIsTransitive(x, y, z);
        J.LessIsStrict(x, z);
      }
    }
  }

  const DEFAULT_PRIORITY := 100

  function Priority(r: Rule): int {
    if r.priority.Some? then r.priority.value else DEFAULT_PRIORITY
  }

  predicate NotAfter(le: IdOrder, a: Rule, b: Rule) {
    Priority(a) < Priority(b) || (Priority(a) == Priority(b) && le(a.id, b.id))
  }

  predicate IsEnabled(r: Rule) {
    r.enabled != Some(false)
  }

  function Enabled(rules: seq<Rule>): (es: seq<Rule>)
    ensures forall r :: r in es <==> r in rules && IsEnabled(r)
  {
    if rules == [] then []
    else
      var rest := Enabled(rules[1..]);
      assert forall r :: r in rules <==> r == rules[0] || r in rules[1..];
      (if IsEnabled(rules[0]) then [rules[0]] else []) + rest
  }

  /** Stable insertion: before the first rule that is strictly later. */
  function Insert(le: IdOrder, r: Rule, sorted: seq<Rule>): (s: seq<Rule>)
    ensures multiset(s) == multiset(sorted) + multiset{r}
  {
    if sorted == [] then [r]
    else if NotAfter(le, r, sorted[0]) then
      assert multiset([r] + sorted) == multiset{r} + multiset(sorted);
      [r] + sorted
    else
      assert sorted == [sorted[0]] + sorted[1..];
      [sorted[0]] + Insert(le, r, sorted[1..])
  }

  function Sort(le: IdOrder, rules: seq<Rule>): (s: seq<Rule>)
    ensures multiset(s) == multiset(rules)
  {
    if rules == [] then []
    else
      assert rules == [rules[0]] + rules[1..];
      Insert(le, rules[0], Sort(le, rules[1..]))
  }

  function Outcomes(rules: seq<Rule>, ctx: Context): (os: seq<Outcome>)
    ensures |os| == |rules|
    ensures forall i :: 0 <= i < |os| ==> os[i] == Outcome(rules[i].id, rules[i].ruleType, EvaluateRule(rules[i], ctx))
  {
    if rules == [] then []
    else [Outcome(rules[0].id, rules[0].ruleType, EvaluateRule(rules[0], ctx))] + Outcomes(rules[1..], ctx)
  }

  function Filter(os: seq<Outcome>, results: set<RuleResult>): (fs: seq<Outcome>)
    ensures forall o :: o in fs <==> o in os && o.result in results
  {
    if os == [] then []
    else
      assert forall o :: o in os <==> o == os[0] || o in os[1..];
      (if os[0].result in results then [os[0]] else []) + Filter(os[1..], results)
  }

  function Checked(os: seq<Outcome>): seq<(string, RuleResult)> {
    seq(|os|, i requires 0 <= i < |os| => (os[i].ruleId, os[i].result))
  }

  function Evaluate(le: IdOrder, policyId: string, version: nat, rules: seq<Rule>, ctx: Context): Evaluation {
    var enabled := Sort(le, Enabled(rules));
    var outcomes := Outcomes(enabled, ctx);
    var violations := Filter(outcomes, {VIOLATION});
    var requirements := Filter(outcomes, {REQUIRE_APPROVAL, REVIEW});
    var status := if |violations| > 0 then FAIL else if |requirements| > 0 then REVIEW_NEEDED else PASSED;
    var events := if ctx.trajectoryEventTypes.Some? then Some(|ctx.trajectoryEventTypes.value|) else None;
    Evaluation(status, Checked(outcomes), violations, requirements, events, ctx.now,
               PreImage(policyId, version, enabled, ctx, Checked(outcomes)))
  }

  // ------------------------------------------------------ independence of the order

  predicate DistinctIds(rules: seq<Rule>) {
    forall i, j :: 0 <= i < j < |rules| ==> rules[i].id != rules[j].id
  }

  ghost predicate Ordered(le: IdOrder, rules: seq<Rule>) {
    forall i, j :: 0 <= i < j < |rules| ==> NotAfter(le, rules[i], rules[j])
  }

  lemma {:induction false} InsertKeepsOrder(le: IdOrder, r: Rule, sorted: seq<Rule>)
    requires TotalOrder(le) && Ordered(le, sorted)
    ensures Ordered(le, Insert(le, r, sorted))
    decreases |sorted|
  {
    if sorted != [] && !NotAfter(le, r, sorted[0]) {
      InsertKeepsOrder(le, r, sorted[1..]);
      var rest := Insert(le, r, sorted[1..]);
      forall x | x in rest ensures NotAfter(le, sorted[0], x) {
        assert x in multiset(rest);
        assert x == r || x in sorted[1..];
      }
    }
  }

  lemma {:induction false} SortIsOrdered(le: IdOrder, rules: seq<Rule>)
    requires TotalOrder(le)
    ensures Ordered(le, Sort(le, rules))
    decreases |rules|
  {
    if rules != [] {
      SortIsOrdered(le, rules[1..]);
      InsertKeepsOrder(le, rules[0], Sort(le, rules[1..]));
    }
  }

  /** Ids tell the members of a list apart. */
  ghost predicate IdsIdentify(rules: seq<Rule>) {
    forall a, b :: a in rules && b in rules && a.id == b.id ==> a == b
  }

  lemma FirstIsLeast(le: IdOrder, xs: seq<Rule>, y: Rule)
    requires TotalOrder(le) && Ordered(le, xs) && y in xs
    ensures NotAfter(le, xs[0], y)
  {
    assert le(y.id, y.id);
  }

  lemma FirstAgrees(le: IdOrder, xs: seq<Rule>, ys: seq<Rule>)
    requires TotalOrder(le) && Ordered(le, xs) && Ordered(le, ys) && xs != [] && ys != []
    requires xs[0] in ys && ys[0] in xs && IdsIdentify(xs)
    ensures xs[0] == ys[0]
  {
    FirstIsLeast(le, xs, ys[0]);
    FirstIsLeast(le, ys, xs[0]);
  }

  lemma TailMultiset(xs: seq<Rule>)
    requires xs != []
    ensures multiset(xs[1..]) == multiset(xs) - multiset{xs[0]}
  {
    assert xs == [xs[0]] + xs[1..];
  }

  lemma TailIsOrdered(le: IdOrder, xs: seq<Rule>)
    requires Ordered(le, xs) && xs != []
    ensures Ordered(le, xs[1..]) && (IdsIdentify(xs) ==> IdsIdentify(xs[1..]))
  {
    assert forall r :: r in xs[1..] ==> r in xs;
  }

  /** Rules with distinct ids have one ordered arrangement, whatever sorting algorithm finds it. */
  lemma {:induction false} OrderedIsUnique(le: IdOrder, xs: seq<Rule>, ys: seq<Rule>)
    requires TotalOrder(le) && Ordered(le, xs) && Ordered(le, ys)
    requires multiset(xs) == multiset(ys) && IdsIdentify(xs)
    ensures xs == ys
    decreases |xs|
  {
    SameMembers(xs, ys);
    assert |xs| == |multiset(xs)| && |ys| == |multiset(ys)|;
    if xs != [] {
      FirstAgrees(le, xs, ys);
      TailMultiset(xs);
      TailMultiset(ys);
      TailIsOrdered(le, xs);
      TailIsOrdered(le, ys);
      OrderedIsUnique(le, xs[1..], ys[1..]);
      assert xs == [xs[0]] + xs[1..] && ys == [ys[0]] + ys[1..];
    }
  }

  lemma SameMembers<T>(xs: seq<T>, ys: seq<T>)
    requires multiset(xs) == multiset(ys)
    ensures forall x :: x in xs <==> x in ys
  {
    forall x ensures x in xs <==> x in ys {
      assert x in xs <==> x in multiset(xs);
      assert x in ys <==> x in multiset(ys);
    }
  }

  lemma {:induction false} EnabledMultiset(rules: seq<Rule>, r: Rule)
    ensures multiset(Enabled(rules))[r] == if IsEnabled(r) then multiset(rules)[r] else 0
    decreases |rules|
  {
    if rules != [] {
      EnabledMultiset(rules[1..], r);
      assert rules == [rules[0]] + rules[1..];
      assert multiset(rules) == multiset{rules[0]} + multiset(rules[1..]);
    }
  }

  lemma {:induction false} EnabledOfPermutation(rules: seq<Rule>, others: seq<Rule>)
    requires multiset(rules) == multiset(others)
    ensures multiset(Enabled(rules)) == multiset(Enabled(others))
  {
    forall r ensures multiset(Enabled(rules))[r] == multiset(Enabled(others))[r] {
      EnabledMultiset(rules, r);
      EnabledMultiset(others, r);
    }
  }

  /**
   * The whole evaluation - status, checked rules, violations, requirements and what is
   * hashed - is the same for every permutation of rules with distinct ids, and it is the
   * one computed from any ordered arrangement of the enabled rules.
   */
  lemma {:induction false} EvaluationIgnoresOrder(le: IdOrder, policyId: string, version: nat, rules: seq<Rule>, others: seq<Rule>, ctx: Context)
    requires TotalOrder(le) && DistinctIds(rules) && multiset(rules) == multiset(others)
    ensures Evaluate(le, policyId, version, rules, ctx) == Evaluate(le, policyId, version, others, ctx)
    ensures forall arranged :: multiset(arranged) == multiset(Enabled(others)) && Ordered(le, arranged) ==>
      Evaluate(le, policyId, version, rules, ctx).hashed.rules == arranged
  {
    EnabledOfPermutation(rules, others);
    var xs := Sort(le, Enabled(rules));
    SortIsOrdered(le, Enabled(rules));
    SortIsOrdered(le, Enabled(others));
    SameMembers(xs, Enabled(rules));
    assert IdsIdentify(xs);
    OrderedIsUnique(le, xs, Sort(le, Enabled(others)));
    forall arranged | multiset(arranged) == multiset(Enabled(others)) && Ordered(le, arranged) ensures xs == arranged {
      OrderedIsUnique(le, xs, arranged);
    }
  }

  // ------------------------------------------------------------------ the status

  /** Some enabled rule evaluates to one of the results. */
  ghost predicate Hits(rules: seq<Rule>, ctx: Context, results: set<RuleResult>) {
    exists r :: r in rules && IsEnabled(r) && EvaluateRule(r, ctx) in results
  }

  lemma {:induction false} FilterHits(le: IdOrder, rules: seq<Rule>, ctx: Context, results: set<RuleResult>)
    ensures |Filter(Outcomes(Sort(le, Enabled(rules)), ctx), results)| > 0 <==> Hits(rules, ctx, results)
  {
    var sorted := Sort(le, Enabled(rules));
    SameMembers(sorted, Enabled(rules));
    FilterFinds(sorted, ctx, results);
    if |Filter(Outcomes(sorted, ctx), results)| > 0 {
      var r :| r in sorted && EvaluateRule(r, ctx) in results;
      assert r in rules && IsEnabled(r);
    }
    if r :| r in rules && IsEnabled(r) && EvaluateRule(r, ctx) in results {
      assert r in sorted;
    }
  }

  lemma {:induction false} FilterFinds(sorted: seq<Rule>, ctx: Context, results: set<RuleResult>)
    ensures |Filter(Outcomes(sorted, ctx), results)| > 0 <==> exists r :: r in sorted && EvaluateRule(r, ctx) in results
  {
    var os := Outcomes(sorted, ctx);
    var fs := Filter(os, results);
    if |fs| > 0 {
      assert fs[0] in os;
      var i :| 0 <= i < |os| && os[i] == fs[0];
      assert EvaluateRule(sorted[i], ctx) in results;
    }
    if r :| r in sorted && EvaluateRule(r, ctx) in results {
      var i :| 0 <= i < |sorted| && sorted[i] == r;
      assert os[i] in fs;
    }
  }

  /** FAIL exactly when an enabled rule is violated, REVIEW when none is but one asks for a human. */
  lemma StatusMeaning(le: IdOrder, policyId: string, version: nat, rules: seq<Rule>, ctx: Context)
    ensures var status := Evaluate(le, policyId, version, rules, ctx).status;
      && (status == FAIL <==> Hits(rules, ctx, {VIOLATION}))
      && (status == PASSED <==> !Hits(rules, ctx, {VIOLATION, REQUIRE_APPROVAL, REVIEW}))
  {
    FilterHits(le, rules, ctx, {VIOLATION});
    FilterHits(le, rules, ctx, {REQUIRE_APPROVAL, REVIEW});
    HitsUnion(rules, ctx, {VIOLATION}, {REQUIRE_APPROVAL, REVIEW});
    assert {VIOLATION} + {REQUIRE_APPROVAL, REVIEW} == {VIOLATION, REQUIRE_APPROVAL, REVIEW};
  }

  lemma HitsUnion(rules: seq<Rule>, ctx: Context, results: set<RuleResult>, others: set<RuleResult>)
    ensures Hits(rules, ctx, results + others) <==> Hits(rules, ctx, results) || Hits(rules, ctx, others)
  {
  }

  lemma HitsGrow(rules: seq<Rule>, more: seq<Rule>, ctx: Context, results: set<RuleResult>)
    requires forall r :: r in rules && IsEnabled(r) ==> r in more
    ensures Hits(rules, ctx, results) ==> Hits(more, ctx, results)
  {
  }

  function Severity(s: Status): nat {
    match s case FAIL => 0 case REVIEW_NEEDED => 1 case PASSED => 2
  }

  /** More enabled rules, in any order and with any ids, never move the status towards PASS. */
  lemma MoreRulesAreStricter(le: IdOrder, policyId: string, version: nat, rules: seq<Rule>, more: seq<Rule>, ctx: Context)
    requires forall r :: r in rules && IsEnabled(r) ==> r in more
    ensures Severity(Evaluate(le, policyId, version, more, ctx).status) <= Severity(Evaluate(le, policyId, version, rules, ctx).status)
  {
    StatusMeaning(le, policyId, version, rules, ctx);
    StatusMeaning(le, policyId, version, more, ctx);
    HitsGrow(rules, more, ctx, {VIOLATION});
    HitsGrow(rules, more, ctx, {VIOLATION, REQUIRE_APPROVAL, REVIEW});
  }
}
