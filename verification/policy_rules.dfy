/**
 * Compiled policy rules, their structural validation and the sixteen evaluators. Money is
 * an integer in a smallest unit, times are milliseconds since the epoch. An empty string
 * counts as absent wherever the code tests it for truth.
 */
module PolicyRules {
  import opened Wrappers

  datatype RuleType =
    | AMOUNT_LIMIT | CUMULATIVE_LIMIT | RECIPIENT_ALLOWLIST | RECIPIENT_BLOCKLIST
    | NEW_RECIPIENT_APPROVAL | CATEGORY_ALLOW | CATEGORY_BLOCK | ASSET_ALLOW | ASSET_BLOCK
    | NETWORK_ALLOW | NETWORK_BLOCK | TIME_WINDOW | HUMAN_APPROVAL | REQUIRED_PREDECESSOR
    | NO_STRUCTURING | CAPABILITY_EXPIRY

  datatype Window = SCALAR(name: string) | RECIPIENT | CATEGORY | ASSET

  datatype Config = Config(
    maximum: Option<int>, window: Option<Window>,
    recipients: seq<string>, assets: seq<string>, networks: seq<string>, categories: seq<string>,
    startHour: Option<int>, endHour: Option<int>, predecessor: Option<string>,
    threshold: Option<int>, windowMinutes: Option<int>, maxCount: Option<int>)

  datatype Rule = Rule(id: string, ruleType: RuleType, priority: Option<int>, enabled: Option<bool>, config: Config)

  datatype Transaction = Transaction(
    action: string, amount: Option<int>, asset: Option<string>, network: Option<string>,
    category: Option<string>, recipient: Option<string>)

  datatype Payment = Payment(amount: int, at: int)

  datatype Context = Context(
    transaction: Transaction, cumulativeSpent: map<string, int>, cumulativeByKey: map<Window, map<string, int>>,
    knownRecipients: seq<string>, trajectoryEventTypes: Option<seq<string>>, recentTransactions: seq<Payment>,
    capabilityExpiresAt: Option<int>, now: int)

  datatype RuleResult = PASS | VIOLATION | REVIEW | REQUIRE_APPROVAL | SKIPPED

  // ---------------------------------------------------------------- validation

  /** A rule as it arrives; `ruleType` is absent when the name is none of the known ones. */
  datatype RawRule = NotAnObject | RawRule(id: string, ruleType: Option<RuleType>)

  function RawId(r: RawRule): string {
    if r.RawRule? then r.id else ""
  }

  /** What is wrong with rule `i`, given that nothing is wrong before it. */
  function Fault(rules: seq<RawRule>, i: nat): Option<ErrorCode>
    requires i < |rules|
  {
    if RawId(rules[i]) == "" then Some(POLICY_INVALID)
    else if exists j :: 0 <= j < i && RawId(rules[j]) == rules[i].id then Some(POLICY_CONFLICT)
    else if rules[i].ruleType.None? then Some(POLICY_INVALID)
    else None
  }

  /** Accepts exactly the lists of known rules with distinct, non-empty ids; otherwise the first fault is thrown. */
  method ValidateCompiledRules(rules: seq<RawRule>) returns (error: Option<ErrorCode>)
    ensures error.None? <==>
      && (forall i :: 0 <= i < |rules| ==> RawId(rules[i]) != "" && rules[i].ruleType.Some?)
      && (forall i, j :: 0 <= i < j < |rules| ==> RawId(rules[i]) != RawId(rules[j]))
    ensures error.Some? ==> exists i :: 0 <= i < |rules| && Fault(rules, i) == error && forall j :: 0 <= j < i ==> Fault(rules, j).None?
  {
    var seen: set<string> := {};
    for i := 0 to |rules|
      invariant forall j :: 0 <= j < i ==> Fault(rules, j).None? && RawId(rules[j]) != "" && rules[j].ruleType.Some?
      invariant forall j, k :: 0 <= j < k < i ==> RawId(rules[j]) != RawId(rules[k])
      invariant seen == set j | 0 <= j < i :: RawId(rules[j])
    {
      var rule := rules[i];
      if rule.NotAnObject? || rule.id == "" {
        assert Fault(rules, i) == Some(POLICY_INVALID);
        return Some(POLICY_INVALID);
      }
      if rule.id in seen {
        assert Fault(rules, i) == Some(POLICY_CONFLICT);
        return Some(POLICY_CONFLICT);
      }
      seen := seen + {rule.id};
      if rule.ruleType.None? {
        assert Fault(rules, i) == Some(POLICY_INVALID);
        return Some(POLICY_INVALID);
      }
    }
    return None;
  }

  // ---------------------------------------------------------------- evaluators

  predicate Given(s: Option<string>) {
    s.Some? && s.value != ""
  }

  function AmountLimit(config: Config, ctx: Context): RuleResult {
    if config.maximum.None? then SKIPPED
    else if ctx.transaction.amount.None? then VIOLATION
    else if ctx.transaction.amount.value <= config.maximum.value then PASS
    else VIOLATION
  }

  function SpentInWindow(window: Window, ctx: Context): int {
    if window.SCALAR? then
      if window.name in ctx.cumulativeSpent then ctx.cumulativeSpent[window.name] else 0
    else
      var t := ctx.transaction;
      var key := if window == RECIPIENT then t.recipient else if window == CATEGORY then t.category else t.asset;
      if Given(key) && window in ctx.cumulativeByKey && key.value in ctx.cumulativeByKey[window]
      then ctx.cumulativeByKey[window][key.value] else 0
  }

  function CumulativeLimit(config: Config, ctx: Context): RuleResult {
    if config.window.None? || config.window.value == SCALAR("") || config.maximum.None? then SKIPPED
    else
      var amount := if ctx.transaction.amount.Some? then ctx.transaction.amount.value else 0;
      if SpentInWindow(config.window.value, ctx) + amount <= config.maximum.value then PASS else VIOLATION
  }

  /** The four allow rules: a value has to be given and listed. */
  function Allow(values: seq<string>, value: Option<string>): RuleResult {
    if Given(value) && value.value in values then PASS else VIOLATION
  }

  /** The four block rules. */
  function Block(values: seq<string>, value: Option<string>): RuleResult {
    if Given(value) && value.value in values then VIOLATION else PASS
  }

  function NewRecipientApproval(ctx: Context): RuleResult {
    var recipient := ctx.transaction.recipient;
    if !Given(recipient) then SKIPPED
    else if recipient.value in ctx.knownRecipients then PASS
    else REQUIRE_APPROVAL
  }

  const HOUR := 3_600_000

  function UtcHour(now: int): (hour: int)
    ensures 0 <= hour < 24
  {
    (now / HOUR) % 24
  }

  predicate InWindow(start: int, end: int, hour: int) {
    if start <= end then start <= hour < end else hour >= start || hour < end
  }

  function TimeWindow(config: Config, ctx: Context): RuleResult {
    if config.startHour.None? || config.endHour.None? then SKIPPED
    else if InWindow(config.startHour.value, config.endHour.value, UtcHour(ctx.now)) then PASS
    else VIOLATION
  }

  function RequiredPredecessor(config: Config, ctx: Context): RuleResult {
    if !Given(config.predecessor) then SKIPPED
    else if ctx.trajectoryEventTypes.Some? && config.predecessor.value in ctx.trajectoryEventTypes.value then PASS
    else VIOLATION
  }

  const DEFAULT_WINDOW_MINUTES := 60
  const DEFAULT_MAX_COUNT := 3

  function WindowMs(config: Config): int {
    (if config.windowMinutes.Some? then config.windowMinutes.value else DEFAULT_WINDOW_MINUTES) * 60_000
  }

  function MaxCount(config: Config): int {
    if config.maxCount.Some? then config.maxCount.value else DEFAULT_MAX_COUNT
  }

  /** Payments no older than the window; those dated after `now` are kept. */
  function Recent(payments: seq<Payment>, now: int, windowMs: int): seq<Payment> {
    if payments == [] then []
    else
      var n := |payments| - 1;
      Recent(payments[..n], now, windowMs) + (if now - payments[n].at <= windowMs then [payments[n]] else [])
  }

  function CountUpTo(payments: seq<Payment>, threshold: int): nat {
    if payments == [] then 0
    else
      var n := |payments| - 1;
      CountUpTo(payments[..n], threshold) + (if payments[n].amount <= threshold then 1 else 0)
  }

  /** Recent payments at or below the threshold, the one being judged included. */
  function StructuringCount(payments: seq<Payment>, amount: Option<int>, now: int, windowMs: int, threshold: int): nat {
    var recent := Recent(payments, now, windowMs);
    CountUpTo(if amount.Some? then recent + [Payment(amount.value, now)] else recent, threshold)
  }

  function NoStructuring(config: Config, ctx: Context): RuleResult {
    if config.threshold.None? then SKIPPED
    else
      var count := StructuringCount(ctx.recentTransactions, ctx.transaction.amount, ctx.now, WindowMs(config), config.threshold.value);
      if count > MaxCount(config) then VIOLATION else PASS
  }

  function CapabilityExpiry(ctx: Context): RuleResult {
    if ctx.capabilityExpiresAt.None? then SKIPPED
    else if ctx.capabilityExpiresAt.value > ctx.now then PASS
    else VIOLATION
  }

  /** The registry of evaluators. */
  function EvaluateRule(rule: Rule, ctx: Context): RuleResult {
    match rule.ruleType
    case AMOUNT_LIMIT => AmountLimit(rule.config, ctx)
    case CUMULATIVE_LIMIT => CumulativeLimit(rule.config, ctx)
    case RECIPIENT_ALLOWLIST => Allow(rule.config.recipients, ctx.transaction.recipient)
    case RECIPIENT_BLOCKLIST => Block(rule.config.recipients, ctx.transaction.recipient)
    case NEW_RECIPIENT_APPROVAL => NewRecipientApproval(ctx)
    case ASSET_ALLOW => Allow(rule.config.assets, ctx.transaction.asset)
    case ASSET_BLOCK => Block(rule.config.assets, ctx.transaction.asset)
    case NETWORK_ALLOW => Allow(rule.config.networks, ctx.transaction.network)
    case NETWORK_BLOCK => Block(rule.config.networks, ctx.transaction.network)
    case CATEGORY_ALLOW => Allow(rule.config.categories, ctx.transaction.category)
    case CATEGORY_BLOCK => Block(rule.config.categories, ctx.transaction.category)
    case TIME_WINDOW => TimeWindow(rule.config, ctx)
    case HUMAN_APPROVAL => REQUIRE_APPROVAL
    case REQUIRED_PREDECESSOR => RequiredPredecessor(rule.config, ctx)
    case NO_STRUCTURING => NoStructuring(rule.config, ctx)
    case CAPABILITY_EXPIRY => CapabilityExpiry(ctx)
  }

  /**
   * A time window is the cyclic half-open interval from `start` to `end`, across midnight
   * too; from an hour to itself it is empty, not the whole day.
   */
  lemma TimeWindowIsCyclic(start: int, end: int, now: int)
    requires 0 <= start < 24 && 0 <= end < 24
    ensures InWindow(start, end, UtcHour(now)) <==> (UtcHour(now) - start) % 24 < (end - start) % 24
  {
    Wrap(UtcHour(now) - start);
    Wrap(end - start);
  }

  lemma Wrap(x: int)
    requires -24 < x < 24
    ensures x % 24 == if x < 0 then x + 24 else x
  {
  }

  // -------------------------------------------------------------- spending over runs

  /** A payment with its recipient, category or asset; an empty key is an absent one. */
  datatype Spend = Spend(key: string, amount: int)

  /** What was spent in the window: with a scalar window on everything, else on that key. */
  function Spent(window: Window, recorded: seq<Spend>, key: string): int {
    if recorded == [] then 0
    else
      var n := |recorded| - 1;
      Spent(window, recorded[..n], key) + (if window.SCALAR? || recorded[n].key == key then recorded[n].amount else 0)
  }

  /** The context the rule sees: the payment, and the totals of what is recorded. */
  function Spending(base: Context, window: Window, recorded: seq<Spend>, x: Spend): Context {
    var t := base.transaction.(amount := Some(x.amount));
    var total := Spent(window, recorded, x.key);
    match window
    case SCALAR(name) => base.(transaction := t, cumulativeSpent := map[name := total])
    case RECIPIENT => base.(transaction := t.(recipient := Some(x.key)), cumulativeByKey := map[RECIPIENT := map[x.key := total]])
    case CATEGORY => base.(transaction := t.(category := Some(x.key)), cumulativeByKey := map[CATEGORY := map[x.key := total]])
    case ASSET => base.(transaction := t.(asset := Some(x.key)), cumulativeByKey := map[ASSET := map[x.key := total]])
  }

  /** Record a payment exactly when the cumulative rule does not object to it. */
  function SpendOne(config: Config, base: Context, window: Window, recorded: seq<Spend>, x: Spend): seq<Spend> {
    if CumulativeLimit(config, Spending(base, window, recorded, x)) == VIOLATION then recorded else recorded + [x]
  }

  function SpendAll(config: Config, base: Context, window: Window, xs: seq<Spend>): seq<Spend> {
    if xs == [] then []
    else SpendOne(config, base, window, SpendAll(config, base, window, xs[..|xs| - 1]), xs[|xs| - 1])
  }

  /** The total a payment counts towards, if it counts towards one: without a key the rule reads none. */
  predicate HasTotal(window: Window, key: string) {
    window.SCALAR? || key != ""
  }

  lemma SpendsWhatFits(config: Config, base: Context, window: Window, recorded: seq<Spend>, x: Spend)
    requires config.maximum.Some? && config.window == Some(window) && window != SCALAR("")
    ensures SpendOne(config, base, window, recorded, x) ==
      if (if HasTotal(window, x.key) then Spent(window, recorded, x.key) else 0) + x.amount <= config.maximum.value
      then recorded + [x] else recorded
  {
  }

  /**
   * In every run no total passes the maximum: neither that of a key nor, with a scalar
   * window, that of everything recorded.
   */
  lemma {:induction false} TotalsStayWithinLimit(config: Config, base: Context, window: Window, xs: seq<Spend>, key: string)
    requires config.maximum.Some? && config.window == Some(window) && window != SCALAR("")
    requires HasTotal(window, key)
    ensures var most := config.maximum.value; Spent(window, SpendAll(config, base, window, xs), key) <= if most < 0 then 0 else most
    decreases |xs|
  {
    if xs != [] {
      var init, x := xs[..|xs| - 1], xs[|xs| - 1];
      var recorded := SpendAll(config, base, window, init);
      TotalsStayWithinLimit(config, base, window, init, key);
      SpendsWhatFits(config, base, window, recorded, x);
      SpentSnoc(window, recorded, x, key);
      if window.SCALAR? {
        ScalarIgnoresKey(window, recorded, key, x.key);
      }
    }
  }

  lemma SpentSnoc(window: Window, recorded: seq<Spend>, x: Spend, key: string)
    ensures Spent(window, recorded + [x], key)
         == Spent(window, recorded, key) + (if window.SCALAR? || x.key == key then x.amount else 0)
  {
    assert (recorded + [x])[..|recorded|] == recorded;
  }

  lemma {:induction false} ScalarIgnoresKey(window: Window, recorded: seq<Spend>, key: string, other: string)
    requires window.SCALAR?
    ensures Spent(window, recorded, key) == Spent(window, recorded, other)
    decreases |recorded|
  {
    if recorded != [] {
      ScalarIgnoresKey(window, recorded[..|recorded| - 1], key, other);
    }
  }

  // ------------------------------------------------------- structuring over runs

  /** Record a payment exactly when the structuring rule does not object to it. */
  function Submit(config: Config, recorded: seq<Payment>, base: Context, p: Payment): seq<Payment> {
    var ctx := base.(transaction := base.transaction.(amount := Some(p.amount)), recentTransactions := recorded, now := p.at);
    if NoStructuring(config, ctx) == VIOLATION then recorded else recorded + [p]
  }

  function SubmitAll(config: Config, base: Context, ps: seq<Payment>): seq<Payment> {
    if ps == [] then []
    else Submit(config, SubmitAll(config, base, ps[..|ps| - 1]), base, ps[|ps| - 1])
  }

  /** Recorded payments in `[from, to]` with an amount at or below the threshold. */
  function CountIn(payments: seq<Payment>, from: int, to: int, threshold: int): nat {
    if payments == [] then 0
    else
      var n := |payments| - 1;
      CountIn(payments[..n], from, to, threshold)
      + (if from <= payments[n].at <= to && payments[n].amount <= threshold then 1 else 0)
  }

  lemma SubmitMeans(config: Config, recorded: seq<Payment>, base: Context, p: Payment)
    requires config.threshold.Some?
    ensures Submit(config, recorded, base, p) ==
      if CountUpTo(Recent(recorded, p.at, WindowMs(config)), config.threshold.value)
         + (if p.amount <= config.threshold.value then 1 else 0) > MaxCount(config)
      then recorded else recorded + [p]
  {
    CountSnoc(Recent(recorded, p.at, WindowMs(config)), p, config.threshold.value);
  }

  lemma CountSnoc(payments: seq<Payment>, p: Payment, threshold: int)
    ensures CountUpTo(payments + [p], threshold) == CountUpTo(payments, threshold) + (if p.amount <= threshold then 1 else 0)
  {
    assert (payments + [p])[..|payments|] == payments;
  }

  /** Whatever lies in an interval that contains `now` and is no longer than the window is recent. */
  lemma {:induction false} IntervalIsRecent(payments: seq<Payment>, now: int, from: int, to: int, windowMs: int, threshold: int)
    requires from <= now <= to && to - from <= windowMs
    ensures CountIn(payments, from, to, threshold) <= CountUpTo(Recent(payments, now, windowMs), threshold)
  {
    if payments != [] {
      var n := |payments| - 1;
      IntervalIsRecent(payments[..n], now, from, to, windowMs, threshold);
      CountSnoc(Recent(payments[..n], now, windowMs), payments[n], threshold);
      assert Recent(payments[..n], now, windowMs) + [] == Recent(payments[..n], now, windowMs);
    }
  }

  /**
   * However the clock moves, no interval as long as the window ever holds more than the
   * permitted number of recorded payments at or below the threshold.
   */
  lemma {:induction false} WindowsNeverOverflow(config: Config, base: Context, ps: seq<Payment>, from: int, to: int)
    requires config.threshold.Some? && to - from <= WindowMs(config)
    ensures var most := MaxCount(config);
      CountIn(SubmitAll(config, base, ps), from, to, config.threshold.value) <= if most < 0 then 0 else most
  {
    if ps != [] {
      var before, p := SubmitAll(config, base, ps[..|ps| - 1]), ps[|ps| - 1];
      WindowsNeverOverflow(config, base, ps[..|ps| - 1], from, to);
      SubmitMeans(config, before, base, p);
      assert (before + [p])[..|before|] == before;
      if from <= p.at <= to {
        IntervalIsRecent(before, p.at, from, to, WindowMs(config), config.threshold.value);
      }
    }
  }

  /** When nothing is dated after `now`, the recent payments are those of the closed window ending now. */
  lemma {:induction false} RecentIsInterval(payments: seq<Payment>, now: int, windowMs: int, threshold: int)
    requires forall p :: p in payments ==> p.at <= now
    ensures CountUpTo(Recent(payments, now, windowMs), threshold) == CountIn(payments, now - windowMs, now, threshold)
  {
    if payments != [] {
      var n := |payments| - 1;
      RecentIsInterval(payments[..n], now, windowMs, threshold);
      CountSnoc(Recent(payments[..n], now, windowMs), payments[n], threshold);
      assert Recent(payments[..n], now, windowMs) + [] == Recent(payments[..n], now, windowMs);
    }
  }

  lemma LongerDiffers(payments: seq<Payment>, p: Payment)
    ensures payments != payments + [p]
  {
    assert |payments + [p]| == |payments| + 1;
  }

  /** The rule's answer, given the two counts it turns on. */
  lemma RefusalMeans(config: Config, recorded: seq<Payment>, base: Context, p: Payment, inWindow: nat)
    requires config.threshold.Some? && inWindow <= MaxCount(config)
    requires CountUpTo(Recent(recorded, p.at, WindowMs(config)), config.threshold.value) == inWindow
    ensures Submit(config, recorded, base, p) == recorded + [p] <==>
      (p.amount > config.threshold.value || inWindow < MaxCount(config))
  {
    SubmitMeans(config, recorded, base, p);
    LongerDiffers(recorded, p);
  }

  lemma RecordedFits(config: Config, base: Context, ps: seq<Payment>, recorded: seq<Payment>, from: int, to: int)
    requires config.threshold.Some? && MaxCount(config) >= 0 && to - from <= WindowMs(config)
    requires recorded == SubmitAll(config, base, ps)
    ensures CountIn(recorded, from, to, config.threshold.value) <= MaxCount(config)
  {
    WindowsNeverOverflow(config, base, ps, from, to);
  }

  /**
   * With a clock that has not run ahead the limiter refuses no more than it has to: a
   * payment above the threshold always passes, another one exactly when the window that
   * ends with it has room left.
   */
  lemma RefusesOnlyWhenFull(config: Config, base: Context, ps: seq<Payment>, recorded: seq<Payment>, p: Payment)
    requires config.threshold.Some? && MaxCount(config) >= 0
    requires recorded == SubmitAll(config, base, ps) && forall q :: q in recorded ==> q.at <= p.at
    ensures Submit(config, recorded, base, p) == recorded + [p] <==>
      (p.amount > config.threshold.value
       || CountIn(recorded, p.at - WindowMs(config), p.at, config.threshold.value) < MaxCount(config))
  {
    var inWindow := CountIn(recorded, p.at - WindowMs(config), p.at, config.threshold.value);
    RecordedFits(config, base, ps, recorded, p.at - WindowMs(config), p.at);
    assert CountUpTo(Recent(recorded, p.at, WindowMs(config)), config.threshold.value) == inWindow by {
      RecentIsInterval(recorded, p.at, WindowMs(config), config.threshold.value);
    }
    RefusalMeans(config, recorded, base, p, inWindow);
  }

  // ------------------------------------------------------------------------- faults

  /** What is wrong with a rule: an empty id or an unknown type is invalid, a repeated id a conflict. */
  lemma FaultMeans(rules: seq<RawRule>, i: nat)
    requires i < |rules|
    ensures var repeated := exists j :: 0 <= j < i && RawId(rules[j]) == RawId(rules[i]);
      && (Fault(rules, i) == Some(POLICY_CONFLICT) <==> RawId(rules[i]) != "" && repeated)
      && (Fault(rules, i) == Some(POLICY_INVALID) <==> RawId(rules[i]) == "" || (!repeated && rules[i].ruleType.None?))
      && (Fault(rules, i).None? <==> RawId(rules[i]) != "" && !repeated && rules[i].ruleType.Some?)
  {
  }
}
