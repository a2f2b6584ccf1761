/**
 * What policies mean for a payment: each rule's demand said of the payment and its context
 * directly, and the status of an evaluation in these terms.
 */
module PolicyMeaning {
  import opened Wrappers
  import opened PolicyRules
  import opened PolicyEngine

  // ----------------------------------------------------------------- the demand of a rule

  predicate IsOneOf(value: Option<string>, values: seq<string>) {
    value.Some? && value.value != "" && value.value in values
  }

  predicate IsNoneOf(value: Option<string>, values: seq<string>) {
    value.None? || value.value == "" || value.value !in values
  }

  /** The total recorded under a given, non-empty key. */
  function Recorded(totals: map<Window, map<string, int>>, window: Window, key: Option<string>): int {
    if key.None? || key.value == "" || window !in totals || key.value !in totals[window] then 0 else totals[window][key.value]
  }

  function AlreadySpent(window: Window, ctx: Context): int {
    match window
    case SCALAR(name) => if name !in ctx.cumulativeSpent then 0 else ctx.cumulativeSpent[name]
    case RECIPIENT => Recorded(ctx.cumulativeByKey, RECIPIENT, ctx.transaction.recipient)
    case CATEGORY => Recorded(ctx.cumulativeByKey, CATEGORY, ctx.transaction.category)
    case ASSET => Recorded(ctx.cumulativeByKey, ASSET, ctx.transaction.asset)
  }

  /** The places of the small payments that are no older than the window. */
  function SmallRecent(payments: seq<Payment>, now: int, windowMinutes: int, threshold: int): set<nat> {
    set i: nat | i < |payments| && now - payments[i].at <= windowMinutes * 60_000 && payments[i].amount <= threshold
  }

  function OrElse(value: Option<int>, default: int): int {
    if value.Some? then value.value else default
  }

  /** The rule does not stand against the payment. */
  predicate Conforms(r: Rule, ctx: Context) {
    var t, c := ctx.transaction, r.config;
    match r.ruleType
    case AMOUNT_LIMIT => c.maximum.Some? ==> t.amount.Some? && t.amount.value <= c.maximum.value
    case CUMULATIVE_LIMIT =>
      c.maximum.Some? && c.window.Some? && c.window.value != SCALAR("") ==>
        AlreadySpent(c.window.value, ctx) + OrElse(t.amount, 0) <= c.maximum.value
    case RECIPIENT_ALLOWLIST => IsOneOf(t.recipient, c.recipients)
    case RECIPIENT_BLOCKLIST => IsNoneOf(t.recipient, c.recipients)
    case NEW_RECIPIENT_APPROVAL => true
    case CATEGORY_ALLOW => IsOneOf(t.category, c.categories)
    case CATEGORY_BLOCK => IsNoneOf(t.category, c.categories)
    case ASSET_ALLOW => IsOneOf(t.asset, c.assets)
    case ASSET_BLOCK => IsNoneOf(t.asset, c.assets)
    case NETWORK_ALLOW => IsOneOf(t.network, c.networks)
    case NETWORK_BLOCK => IsNoneOf(t.network, c.networks)
    case TIME_WINDOW => c.startHour.Some? && c.endHour.Some? ==> IsOpen(c.startHour.value, c.endHour.value, ctx.now)
    case HUMAN_APPROVAL => true
    case REQUIRED_PREDECESSOR =>
      c.predecessor.Some? && c.predecessor.value != "" ==>
        ctx.trajectoryEventTypes.Some? && c.predecessor.value in ctx.trajectoryEventTypes.value
    case NO_STRUCTURING =>
      c.threshold.Some? ==>
        |SmallRecent(ctx.recentTransactions, ctx.now, OrElse(c.windowMinutes, 60), c.threshold.value)|
        + (if t.amount.Some? && t.amount.value <= c.threshold.value then 1 else 0) <= OrElse(c.maxCount, 3)
    case CAPABILITY_EXPIRY => ctx.capabilityExpiresAt.Some? ==> ctx.now < ctx.capabilityExpiresAt.value
  }

  /** The rule wants a human to look at the payment. */
  predicate AsksForHuman(r: Rule, ctx: Context) {
    || r.ruleType == HUMAN_APPROVAL
    || (r.ruleType == NEW_RECIPIENT_APPROVAL && ctx.transaction.recipient.Some? && ctx.transaction.recipient.value != ""
        && ctx.transaction.recipient.value !in ctx.knownRecipients)
  }

  /** The instant lies, on its day, at or after the start hour and before the end hour, across midnight if the start is later. */
  predicate IsOpen(start: int, end: int, now: int) {
    var ofDay := now % 86_400_000;
    if start <= end then start * 3_600_000 <= ofDay < end * 3_600_000
    else start * 3_600_000 <= ofDay || ofDay < end * 3_600_000
  }

  /** The UTC hour is the one whose first and last instants enclose the time of day. */
  lemma HourEnclosesTime(now: int)
    ensures UtcHour(now) * 3_600_000 <= now % 86_400_000 < (UtcHour(now) + 1) * 3_600_000
  {
    var hours := now / 3_600_000;
    var days := hours / 24;
    assert now == 86_400_000 * days + (3_600_000 * (hours % 24) + now % 3_600_000);
    DayIsLeft(days, 3_600_000 * (hours % 24) + now % 3_600_000);
  }

  lemma DayIsLeft(days: int, rest: int)
    requires 0 <= rest < 86_400_000
    ensures (86_400_000 * days + rest) % 86_400_000 == rest
  {
  }

  lemma OpenIsInWindow(start: int, end: int, now: int)
    ensures IsOpen(start, end, now) <==> InWindow(start, end, UtcHour(now))
  {
    HourEnclosesTime(now);
  }

  lemma {:induction false} SmallRecentIsCount(payments: seq<Payment>, now: int, windowMinutes: int, threshold: int)
    ensures |SmallRecent(payments, now, windowMinutes, threshold)| == CountUpTo(Recent(payments, now, windowMinutes * 60_000), threshold)
    decreases |payments|
  {
    if payments == [] {
      assert SmallRecent(payments, now, windowMinutes, threshold) == {};
    } else {
      var n := |payments| - 1;
      var init, p := payments[..n], payments[n];
      SmallRecentIsCount(init, now, windowMinutes, threshold);
      CountSnoc(Recent(init, now, windowMinutes * 60_000), p, threshold);
      assert Recent(init, now, windowMinutes * 60_000) + [] == Recent(init, now, windowMinutes * 60_000);
      OneMoreRecent(payments, now, windowMinutes, threshold);
    }
  }

  lemma OneMoreRecent(payments: seq<Payment>, now: int, windowMinutes: int, threshold: int)
    requires payments != []
    ensures var n := |payments| - 1; var p := payments[n];
      |SmallRecent(payments, now, windowMinutes, threshold)| == |SmallRecent(payments[..n], now, windowMinutes, threshold)|
        + (if now - p.at <= windowMinutes * 60_000 && p.amount <= threshold then 1 else 0)
  {
    var n := |payments| - 1;
    var p := payments[n];
    assert SmallRecent(payments, now, windowMinutes, threshold) == SmallRecent(payments[..n], now, windowMinutes, threshold)
      + (if now - p.at <= windowMinutes * 60_000 && p.amount <= threshold then {n} else {});
  }

  lemma StructuringCounts(c: Config, ctx: Context)
    requires c.threshold.Some?
    ensures NoStructuring(c, ctx) == VIOLATION <==>
      |SmallRecent(ctx.recentTransactions, ctx.now, OrElse(c.windowMinutes, 60), c.threshold.value)|
      + (if ctx.transaction.amount.Some? && ctx.transaction.amount.value <= c.threshold.value then 1 else 0) > OrElse(c.maxCount, 3)
  {
    SmallRecentIsCount(ctx.recentTransactions, ctx.now, OrElse(c.windowMinutes, 60), c.threshold.value);
    var recent := Recent(ctx.recentTransactions, ctx.now, WindowMs(c));
    if ctx.transaction.amount.Some? {
      CountSnoc(recent, Payment(ctx.transaction.amount.value, ctx.now), c.threshold.value);
    }
  }

  /** The rule has something to look at: what it limits by is configured, and what it limits is there. */
  predicate Applies(r: Rule, ctx: Context) {
    var c := r.config;
    match r.ruleType
    case AMOUNT_LIMIT => c.maximum.Some?
    case CUMULATIVE_LIMIT => c.maximum.Some? && c.window.Some? && c.window.value != SCALAR("")
    case NEW_RECIPIENT_APPROVAL => ctx.transaction.recipient.Some? && ctx.transaction.recipient.value != ""
    case TIME_WINDOW => c.startHour.Some? && c.endHour.Some?
    case REQUIRED_PREDECESSOR => c.predecessor.Some? && c.predecessor.value != ""
    case NO_STRUCTURING => c.threshold.Some?
    case CAPABILITY_EXPIRY => ctx.capabilityExpiresAt.Some?
    case _ => true
  }

  /** A rule is violated exactly when its demand is not met, asks for approval exactly when it wants a human, and is skipped exactly when it does not apply. */
  lemma RuleMeansItsDemand(r: Rule, ctx: Context)
    ensures EvaluateRule(r, ctx) == VIOLATION <==> !Conforms(r, ctx)
    ensures EvaluateRule(r, ctx) in {REQUIRE_APPROVAL, REVIEW} <==> AsksForHuman(r, ctx)
    ensures EvaluateRule(r, ctx) == SKIPPED <==> !Applies(r, ctx)
  {
    if r.ruleType == NO_STRUCTURING && r.config.threshold.Some? {
      StructuringCounts(r.config, ctx);
    }
    if r.ruleType == TIME_WINDOW && r.config.startHour.Some? && r.config.endHour.Some? {
      OpenIsInWindow(r.config.startHour.value, r.config.endHour.value, ctx.now);
    }
  }

  // -------------------------------------------------------------- the status of a payment

  /**
   * An evaluation fails exactly when an enabled rule stands against the payment, and passes
   * exactly when none does and none wants a human.
   */
  lemma StatusOverThePayment(le: IdOrder, policyId: string, version: nat, rules: seq<Rule>, ctx: Context)
    ensures var status := Evaluate(le, policyId, version, rules, ctx).status;
      && (status == FAIL <==> exists r :: r in rules && r.enabled != Some(false) && !Conforms(r, ctx))
      && (status == PASSED <==> forall r :: r in rules && r.enabled != Some(false) ==> Conforms(r, ctx) && !AsksForHuman(r, ctx))
  {
    StatusMeaning(le, policyId, version, rules, ctx);
    forall r ensures EvaluateRule(r, ctx) == VIOLATION <==> !Conforms(r, ctx)
      ensures EvaluateRule(r, ctx) in {REQUIRE_APPROVAL, REVIEW} <==> AsksForHuman(r, ctx)
    {
      RuleMeansItsDemand(r, ctx);
    }
    if r :| r in rules && r.enabled != Some(false) && !Conforms(r, ctx) {
      assert EvaluateRule(r, ctx) in {VIOLATION};
    }
    if Hits(rules, ctx, {VIOLATION, REQUIRE_APPROVAL, REVIEW}) {
      var r :| r in rules && IsEnabled(r) && EvaluateRule(r, ctx) in {VIOLATION, REQUIRE_APPROVAL, REVIEW};
      assert !Conforms(r, ctx) || AsksForHuman(r, ctx);
    }
    if r :| r in rules && r.enabled != Some(false) && (!Conforms(r, ctx) || AsksForHuman(r, ctx)) {
      assert EvaluateRule(r, ctx) in {VIOLATION, REQUIRE_APPROVAL, REVIEW};
    }
  }

  /** Amount limits alone: the payment passes exactly when its amount is given and within every maximum, else it fails. */
  lemma AmountLimitsBindTheAmount(le: IdOrder, policyId: string, version: nat, rules: seq<Rule>, ctx: Context)
    requires forall r :: r in rules && r.enabled != Some(false) ==> r.ruleType == AMOUNT_LIMIT && r.config.maximum.Some?
    ensures var status := Evaluate(le, policyId, version, rules, ctx).status; var amount := ctx.transaction.amount;
      && status in {PASSED, FAIL}
      && (status == PASSED <==> forall r :: r in rules && r.enabled != Some(false) ==> amount.Some? && amount.value <= r.config.maximum.value)
  {
    StatusOverThePayment(le, policyId, version, rules, ctx);
  }

  /** The report lists exactly the enabled rules that stand against the payment, and exactly those that want a human. */
  lemma ReportsSayWhy(le: IdOrder, policyId: string, version: nat, rules: seq<Rule>, ctx: Context, r: Rule)
    requires r in rules && r.enabled != Some(false)
    ensures var e := Evaluate(le, policyId, version, rules, ctx);
      && (!Conforms(r, ctx) ==> Outcome(r.id, r.ruleType, VIOLATION) in e.violations)
      && (AsksForHuman(r, ctx) ==> exists o :: o in e.requirements && o.ruleId == r.id && o.ruleType == r.ruleType)
  {
    var o := Outcome(r.id, r.ruleType, EvaluateRule(r, ctx));
    RuleMeansItsDemand(r, ctx);
    RuleIsEvaluated(le, rules, ctx, r);
    if AsksForHuman(r, ctx) {
      assert o in Evaluate(le, policyId, version, rules, ctx).requirements;
    }
  }

  lemma RuleIsEvaluated(le: IdOrder, rules: seq<Rule>, ctx: Context, r: Rule)
    requires r in rules && IsEnabled(r)
    ensures Outcome(r.id, r.ruleType, EvaluateRule(r, ctx)) in Outcomes(Sort(le, Enabled(rules)), ctx)
  {
    var sorted := Sort(le, Enabled(rules));
    SameMembers(sorted, Enabled(rules));
    OutcomeIsThere(sorted, ctx, r);
  }

  lemma OutcomeIsThere(rules: seq<Rule>, ctx: Context, r: Rule)
    requires r in rules
    ensures Outcome(r.id, r.ruleType, EvaluateRule(r, ctx)) in Outcomes(rules, ctx)
  {
    var i :| 0 <= i < |rules| && rules[i] == r;
    assert Outcomes(rules, ctx)[i] == Outcome(r.id, r.ruleType, EvaluateRule(r, ctx));
  }

  lemma OutcomeIsOfARule(rules: seq<Rule>, ctx: Context, o: Outcome) returns (r: Rule)
    requires o in Outcomes(rules, ctx)
    ensures r in rules && o == Outcome(r.id, r.ruleType, EvaluateRule(r, ctx))
  {
    var os := Outcomes(rules, ctx);
    var i :| 0 <= i < |os| && os[i] == o;
    r := rules[i];
  }

  /** The outcome is of an enabled rule that stands against the payment, or that wants a human. */
  ghost predicate IsOfObjection(rules: seq<Rule>, ctx: Context, o: Outcome) {
    o.result == VIOLATION
    && exists r :: r in rules && r.enabled != Some(false) && !Conforms(r, ctx) && o.ruleId == r.id && o.ruleType == r.ruleType
  }

  ghost predicate IsOfQuestion(rules: seq<Rule>, ctx: Context, o: Outcome) {
    o.result in {REQUIRE_APPROVAL, REVIEW}
    && exists r :: r in rules && r.enabled != Some(false) && AsksForHuman(r, ctx) && o.ruleId == r.id && o.ruleType == r.ruleType
  }

  lemma ReportsSayNothingElse(le: IdOrder, policyId: string, version: nat, rules: seq<Rule>, ctx: Context, o: Outcome)
    ensures var e := Evaluate(le, policyId, version, rules, ctx);
      (o in e.violations ==> IsOfObjection(rules, ctx, o)) && (o in e.requirements ==> IsOfQuestion(rules, ctx, o))
  {
    var sorted := Sort(le, Enabled(rules));
    if o in Outcomes(sorted, ctx) {
      var r := OutcomeIsOfARule(sorted, ctx, o);
      SameMembers(sorted, Enabled(rules));
      assert r in rules && IsEnabled(r);
      RuleMeansItsDemand(r, ctx);
    }
  }

  /** What is hashed is the policy, the enabled rules, the context, and each rule's id with its result, in one order. */
  lemma HashedIsTheEvaluation(le: IdOrder, policyId: string, version: nat, rules: seq<Rule>, ctx: Context)
    ensures var e := Evaluate(le, policyId, version, rules, ctx);
      && e.hashed.policyId == policyId && e.hashed.version == version && e.hashed.context == ctx
      && multiset(e.hashed.rules) == multiset(Enabled(rules))
      && e.hashed.outcomes == e.rulesChecked && |e.rulesChecked| == |e.hashed.rules|
      && (forall i :: 0 <= i < |e.rulesChecked| ==>
            e.rulesChecked[i].0 == e.hashed.rules[i].id && e.rulesChecked[i].1 == EvaluateRule(e.hashed.rules[i], ctx))
      && e.evaluatedAt == ctx.now
      && (e.eventsConsidered.Some? <==> ctx.trajectoryEventTypes.Some?)
      && (e.eventsConsidered.Some? ==> e.eventsConsidered.value == |ctx.trajectoryEventTypes.value|)
  {
  }
}
