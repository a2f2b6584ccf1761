/** What an ALLOW at execution time says about the world it was taken in. */
module FinalRevalidation {
  import opened Wrappers
  import opened ExecutionProtocol
  import L = Ledger
  import D = DecisionEngine
  import E = PolicyEngine
  import G = TransactionGate
  import J = JsonCanonical
  import R = PolicyRules
  import S = SpelledJson
  import M = PolicyMeaning

  predicate AuthorityHolds(input: RevalidateInput, auth: Authority) {
    && auth.agent.Some? && auth.agent.value.active && auth.hasConstitution && auth.capability.Some?
    && input.intentIsValid && (input.intentValidUntil.None? || input.intentValidUntil.value > input.now)
  }

  /** The agent's active version exists and none of its enabled rules objects or asks for a human. */
  ghost predicate PolicyIsSilent(input: RevalidateInput, auth: Authority) {
    && auth.agent.Some? && R.Given(auth.agent.value.activePolicyId) && auth.version.Some?
    && forall r :: r in auth.version.value.rules && E.IsEnabled(r) ==>
         R.EvaluateRule(r, PolicyContext(input, auth.capability)) in {R.PASS, R.SKIPPED}
  }

  ghost predicate TransactionIsTheProposal(input: RevalidateInput) {
    G.Matches(input.proposal, input.analysis, input.networks, input.proposal.actionType == "PAY")
  }

  /** The simulation is of this transaction with this payload, and did not fail. */
  predicate SimulationHolds(env: Env, input: RevalidateInput) {
    && input.simulation.transactionId == input.transactionId
    && input.simulatedPayloadHash == PayloadHash(env, input)
    && (input.simulation.status == G.PASS
        || (!input.simulationRequired && input.simulation.status in {G.ERROR, G.UNSUPPORTED}))
  }

  predicate ApprovalHolds(input: RevalidateInput, auth: Authority) {
    R.Given(input.approvalId) ==>
      && auth.approval.Some? && auth.approval.value.status == D.A_APPROVED
      && auth.approval.value.contextHash == input.decisionContextHash
  }

  lemma SilentMeansPassed(env: Env, input: RevalidateInput, auth: Authority)
    requires auth.agent.Some?
    ensures Policy(env, input, auth).status == E.PASSED <==> PolicyIsSilent(input, auth)
  {
    if R.Given(auth.agent.value.activePolicyId) && auth.version.Some? {
      var v, ctx := auth.version.value, PolicyContext(input, auth.capability);
      E.StatusMeaning(env.idOrder, auth.agent.value.activePolicyId.value, v.version, v.rules, ctx);
      NoHits(v.rules, ctx);
    }
  }

  lemma NoHits(rules: seq<R.Rule>, ctx: R.Context)
    ensures !E.Hits(rules, ctx, {R.VIOLATION, R.REQUIRE_APPROVAL, R.REVIEW})
      <==> forall r :: r in rules && E.IsEnabled(r) ==> R.EvaluateRule(r, ctx) in {R.PASS, R.SKIPPED}
  {
    forall r ensures R.EvaluateRule(r, ctx) in {R.PASS, R.SKIPPED} <==> R.EvaluateRule(r, ctx) !in {R.VIOLATION, R.REQUIRE_APPROVAL, R.REVIEW} {
      Partition(R.EvaluateRule(r, ctx));
    }
  }

  lemma Partition(result: R.RuleResult)
    ensures result in {R.PASS, R.SKIPPED} <==> result !in {R.VIOLATION, R.REQUIRE_APPROVAL, R.REVIEW}
  {
  }

  lemma ApprovalVote(input: RevalidateInput, auth: Authority)
    ensures (R.Given(input.approvalId) ==>
              D.ResolveApprovalState(auth.approval, input.decisionContextHash, input.now) == D.APPROVED)
      <==> ApprovalHolds(input, auth)
  {
  }

  lemma SimulationVotes(env: Env, input: RevalidateInput)
    ensures SimulationHolds(env, input) <==>
      && G.ValidateSimulationBinding(input.simulation, input.transactionId, input.simulatedPayloadHash, PayloadHash(env, input)) == G.BOUND
      && var outcome := G.ClassifySimulation(input.simulation);
         outcome == G.CONTINUE || (outcome == G.FAIL_CLOSED && !input.simulationRequired)
  {
  }

  /** ALLOW, from the ladder's own signals. */
  lemma AllowFromSignals(i: D.Input)
    ensures D.Decide(i).result == D.ALLOW <==>
      && !i.platformInvariantViolated && i.agentActive && i.intentValid && i.capabilityValid && i.constitutionCompatible
      && i.policyStatus == E.PASSED && i.gateMatches != Some(false)
      && (i.simulationBinding.None? || i.simulationBinding.value.BOUND?)
      && (i.simulationOutcome.None? ==> !i.simulationRequired)
      && (i.simulationOutcome.Some? ==>
            i.simulationOutcome.value.CONTINUE? || (i.simulationOutcome.value.FAIL_CLOSED? && !i.simulationRequired))
      && !i.contextStale && (i.approval.None? || i.approval.value.APPROVED?)
      && (i.advice.None? || i.advice.value.PROCEED_CANDIDATE? || i.advice.value.MONITOR?)
  {
  }

  /** The decision taken on the freshly read rows is ALLOW exactly when every one of these holds at that moment. */
  lemma AllowMeans(env: Env, input: RevalidateInput, auth: Authority)
    ensures FreshDecision(env, input, auth).result == D.ALLOW <==>
      && AuthorityHolds(input, auth) && PolicyIsSilent(input, auth) && TransactionIsTheProposal(input)
      && SimulationHolds(env, input) && !Stale(env, input, auth) && ApprovalHolds(input, auth)
      && input.advice in {D.PROCEED_CANDIDATE, D.MONITOR}
  {
    var i := DecisionInput(env, input, auth);
    AllowFromSignals(i);
    SimulationVotes(env, input);
    ApprovalVote(input, auth);
    if auth.agent.Some? {
      SilentMeansPassed(env, input, auth);
    }
  }

  /**
   * An ALLOW means that the payment meets every enabled rule of the active version: its
   * amount is within every maximum, its recipient, asset and network are where the lists
   * want them, it is inside every time window, and no rule wants a human.
   */
  lemma AllowedPaymentMeetsEveryRule(env: Env, input: RevalidateInput, auth: Authority, r: R.Rule)
    requires FreshDecision(env, input, auth).result == D.ALLOW
    requires auth.version.Some? && r in auth.version.value.rules && r.enabled != Some(false)
    ensures var p := input.proposal; var c := r.config; var recipient := G.ProposalRecipient(p);
      && (r.ruleType == R.AMOUNT_LIMIT && c.maximum.Some? ==> p.amount.Some? && p.amount.value.amount.units <= c.maximum.value)
      && (r.ruleType == R.RECIPIENT_ALLOWLIST ==> M.IsOneOf(recipient, c.recipients))
      && (r.ruleType == R.RECIPIENT_BLOCKLIST ==> M.IsNoneOf(recipient, c.recipients))
      && (r.ruleType == R.ASSET_ALLOW ==> p.amount.Some? && M.IsOneOf(Some(p.amount.value.currency), c.assets))
      && (r.ruleType == R.ASSET_BLOCK && p.amount.Some? ==> M.IsNoneOf(Some(p.amount.value.currency), c.assets))
      && (r.ruleType == R.NETWORK_ALLOW ==> M.IsOneOf(p.network, c.networks))
      && (r.ruleType == R.NETWORK_BLOCK ==> M.IsNoneOf(p.network, c.networks))
      && (r.ruleType == R.TIME_WINDOW && c.startHour.Some? && c.endHour.Some? ==> M.IsOpen(c.startHour.value, c.endHour.value, input.now))
      && (r.ruleType == R.CAPABILITY_EXPIRY && auth.capability.Some? && auth.capability.value.expiresAt.Some? ==>
            input.now < auth.capability.value.expiresAt.value)
      && r.ruleType != R.HUMAN_APPROVAL
  {
    AllowMeans(env, input, auth);
    M.RuleMeansItsDemand(r, PolicyContext(input, auth.capability));
  }

  /**
   * The context of a revalidation has no category, no history and no known recipients. So a
   * call is never allowed under an enabled rule that needs one, whatever happened before.
   */
  lemma HistoryRulesForbid(env: Env, input: RevalidateInput, auth: Authority, r: R.Rule)
    requires auth.version.Some? && r in auth.version.value.rules && r.enabled != Some(false)
    requires r.ruleType == R.CATEGORY_ALLOW
      || (r.ruleType == R.REQUIRED_PREDECESSOR && r.config.predecessor.Some? && r.config.predecessor.value != "")
      || (r.ruleType == R.NEW_RECIPIENT_APPROVAL && R.Given(G.ProposalRecipient(input.proposal)))
    ensures FreshDecision(env, input, auth).result != D.ALLOW
  {
    AllowMeans(env, input, auth);
    M.RuleMeansItsDemand(r, PolicyContext(input, auth.capability));
  }

  /** And a cumulative limit sees nothing spent before: it bounds each payment alone. */
  lemma CumulativeLimitsSeeOnePayment(input: RevalidateInput, capability: Option<ActiveCapability>, r: R.Rule)
    requires r.ruleType == R.CUMULATIVE_LIMIT && r.config.maximum.Some?
    requires r.config.window.Some? && r.config.window.value != R.SCALAR("")
    ensures var amount := if input.proposal.amount.Some? then input.proposal.amount.value.amount.units else 0;
      R.EvaluateRule(r, PolicyContext(input, capability)) == R.VIOLATION <==> amount > r.config.maximum.value
  {
    M.RuleMeansItsDemand(r, PolicyContext(input, capability));
  }

  /** The call is a revalidation whose fresh decision was ALLOW, and the request is the one it makes, whatever its status is by now. */
  ghost predicate MintedBy(env: Env, op: Op, q: Request) {
    && op.OpRevalidate? && FreshDecision(env, op.input, op.auth).result == D.ALLOW
    && q == NewRequest(env, op.input, op.auth).(status := q.status)
  }

  /** Every request of every run was minted by a call whose fresh decision was ALLOW, with that call's terms. */
  lemma {:induction false} EveryRequestWasAllowed(env: Env, w: World, ops: seq<Op>, q: Id)
    requires Inv(w) && q !in w.requests && q in Run(env, w, ops).requests
    ensures exists k :: 0 <= k < |ops| && MintedBy(env, ops[k], Run(env, w, ops).requests[q])
    decreases |ops|
  {
    var w1 := Step(env, w, ops[0]);
    StepKeepsInv(env, w, ops[0]);
    if q in w1.requests {
      NewRequestsAreMinted(env, w, ops[0], q);
      RequestsKeepTheirTerms(env, w1, ops[1..], q);
      assert MintedBy(env, ops[0], Run(env, w, ops).requests[q]);
    } else {
      EveryRequestWasAllowed(env, w1, ops[1..], q);
      MintedLater(env, ops, Run(env, w, ops).requests[q]);
    }
  }

  lemma MintedLater(env: Env, ops: seq<Op>, q: Request)
    requires ops != [] && exists k :: 0 <= k < |ops[1..]| && MintedBy(env, ops[1..][k], q)
    ensures exists k :: 0 <= k < |ops| && MintedBy(env, ops[k], q)
  {
    var k :| 0 <= k < |ops[1..]| && MintedBy(env, ops[1..][k], q);
    assert MintedBy(env, ops[k + 1], q);
  }

  lemma NewRequestsAreMinted(env: Env, w: World, op: Op, q: Id)
    requires Inv(w) && q !in w.requests && q in Step(env, w, op).requests
    ensures MintedBy(env, op, Step(env, w, op).requests[q])
  {
    StepKeepsTerms(env, w, op);
    if op.OpRevalidate? {
      MintsExactlyWhenAllowed(env, w, op.input, op.auth);
    }
  }

  /** `later` still holds every request of `now`, with the same terms. */
  ghost predicate KeepsTerms(now: Requests, later: Requests) {
    forall q :: q in now ==> q in later && later[q] == now[q].(status := later[q].status)
  }

  ghost predicate SameTerms(now: Requests, later: Requests) {
    later.Keys == now.Keys && KeepsTerms(now, later)
  }

  lemma SettleBoundKeepsRequests(w: World, op: L.Settlement, companyId: string, q: Id, statuses: set<L.Status>)
    ensures SettleBound(w, op, companyId, q, statuses).requests == w.requests
  {
  }

  lemma IngestKeepsTerms(w: World, companyId: string, input: ResultInput)
    ensures SameTerms(w.requests, Ingest(w, companyId, input).0.requests)
  {
    if Ingest(w, companyId, input).1.Ok? {
      var w1 := Recorded(w, ResultRow(input.executionId, input.status, input.chain, input.transactionHash));
      SettleBoundKeepsRequests(w1, L.DoMarkUnknown, companyId, input.executionId, {L.RESERVED});
      SettleBoundKeepsRequests(w1, L.DoRelease, companyId, input.executionId, {L.RESERVED});
    }
  }

  lemma ReconcileKeepsTerms(w: World, companyId: string, q: Id, answer: RequestStatus)
    ensures SameTerms(w.requests, Reconcile(w, companyId, q, answer).0.requests)
  {
    if Known(w, companyId, q) {
      SettleBoundKeepsRequests(SetStatus(w, q, FAILED), L.DoReconcileRelease, companyId, q, {L.RESERVED, L.UNKNOWN});
    }
  }

  lemma VerifyKeepsTerms(w: World, companyId: string, q: Id, authorized: Receipt, actual: Receipt, clientVerified: bool)
    ensures SameTerms(w.requests, Verify(w, companyId, q, authorized, actual, clientVerified).0.requests)
  {
    var v := VerificationOf(q, authorized, actual, clientVerified);
    SettleBoundKeepsRequests(w.(verifications := w.verifications + [v]), L.DoCommit, companyId, q, {L.RESERVED});
  }

  /** Executor answers change only the status of a request. */
  lemma AnswersKeepTerms(env: Env, w: World, op: Op)
    requires op.OpIngest? || op.OpReconcile? || op.OpVerify?
    ensures SameTerms(w.requests, Step(env, w, op).requests)
  {
    match op
    case OpIngest(companyId, result) => IngestKeepsTerms(w, companyId, result);
    case OpReconcile(companyId, q, answer) => ReconcileKeepsTerms(w, companyId, q, answer);
    case OpVerify(companyId, q, authorized, actual, clientVerified) =>
      VerifyKeepsTerms(w, companyId, q, authorized, actual, clientVerified);
  }

  lemma StepKeepsTerms(env: Env, w: World, op: Op)
    requires Inv(w)
    ensures op.OpRevalidate? || Step(env, w, op).requests.Keys == w.requests.Keys
    ensures KeepsTerms(w.requests, Step(env, w, op).requests)
  {
    if op.OpRevalidate? {
      RevalidateKeepsTerms(env, w, op.input, op.auth);
    } else if !op.OpEnsure? {
      AnswersKeepTerms(env, w, op);
    }
  }

  lemma ProceedKeepsTerms(w: World, decision: D.Decision, plan: Plan)
    requires Inv(w) && Coherent(plan)
    ensures KeepsTerms(w.requests, Proceed(w, decision, plan).0.requests)
  {
    ProceedExactly(w, decision, plan);
  }

  lemma RevalidateKeepsTerms(env: Env, w: World, input: RevalidateInput, auth: Authority)
    requires Inv(w)
    ensures KeepsTerms(w.requests, Revalidate(env, w, input, auth).0.requests)
  {
    PlanIsCoherent(env, input, auth);
    ProceedKeepsTerms(w, FreshDecision(env, input, auth), PlanOf(env, input, auth));
  }

  lemma {:induction false} RequestsKeepTheirTerms(env: Env, w: World, ops: seq<Op>, q: Id)
    requires Inv(w) && q in w.requests
    ensures q in Run(env, w, ops).requests
    ensures Run(env, w, ops).requests[q] == w.requests[q].(status := Run(env, w, ops).requests[q].status)
    decreases |ops|
  {
    if ops != [] {
      StepKeepsInv(env, w, ops[0]);
      StepKeepsTerms(env, w, ops[0]);
      RequestsKeepTheirTerms(env, Step(env, w, ops[0]), ops[1..], q);
    }
  }

  // ---------------------------------------------------------------- hashes at this point

  ghost predicate Separates<T(!new)>(f: T -> string) {
    forall x, y :: f(x) == f(y) ==> x == y
  }

  /** The digests of the code separate payloads and contexts. */
  lemma CodeHashesSeparate(digest: J.Json -> string)
    requires J.Injective(digest)
    ensures Separates((p: G.Payload) => G.PayloadHash(digest, p))
    ensures Separates((c: D.HashContext) => D.ContextHash(digest, c))
  {
    forall p, q | G.PayloadHash(digest, p) == G.PayloadHash(digest, q) ensures p == q {
      G.PayloadHashSeparates(digest, p, q);
    }
    forall c, d | D.ContextHash(digest, c) == D.ContextHash(digest, d) ensures c == d {
      D.ContextHashSeparates(digest, c, d);
    }
  }

  /**
   * If the decision was captured with context `then` and the simulation ran on payload
   * `simulated`, an ALLOW now means that neither has changed in any field since.
   */
  lemma AllowMeansNothingChanged(env: Env, input: RevalidateInput, auth: Authority, captured: D.HashContext, simulated: G.Payload)
    requires Separates(env.context) && Separates(env.payload)
    requires input.decisionContextHash == env.context(captured) && input.decisionContextHash != ""
    requires input.simulatedPayloadHash == env.payload(simulated)
    requires FreshDecision(env, input, auth).result == D.ALLOW
    ensures FreshContext(env, input, auth) == captured
    ensures G.PayloadOf(input.transactionId, input.networks.actual, input.analysis) == simulated
  {
    AllowMeans(env, input, auth);
  }

  /** No context contains its own hash. */
  ghost predicate NoSelfHash(env: Env) {
    forall c: D.HashContext :: c.approvalContextHash != Some(env.context(c))
  }

  /** The assessment is young enough, where an age is asked for. */
  predicate AssessmentIsFresh(input: RevalidateInput) {
    input.assessmentMaxAgeMs.Some? ==>
      input.assessmentCreatedAt.Some? && input.now - input.assessmentCreatedAt.value <= input.assessmentMaxAgeMs.value
  }

  /**
   * With an approval the fresh context contains the captured hash itself, so any captured
   * hash makes the call stale. A call that names an approval is allowed if and only if it
   * captured no hash, the approval was given on no hash either, and everything else holds.
   */
  lemma ApprovedCallsAreStale(env: Env, input: RevalidateInput, auth: Authority)
    requires NoSelfHash(env) && R.Given(input.approvalId)
    ensures FreshDecision(env, input, auth).result == D.ALLOW <==>
      && input.decisionContextHash == ""
      && auth.approval.Some? && auth.approval.value.status == D.A_APPROVED && auth.approval.value.contextHash == ""
      && AuthorityHolds(input, auth) && PolicyIsSilent(input, auth) && TransactionIsTheProposal(input)
      && SimulationHolds(env, input) && AssessmentIsFresh(input)
      && input.advice in {D.PROCEED_CANDIDATE, D.MONITOR}
    ensures input.decisionContextHash != "" ==> Stale(env, input, auth)
  {
    AllowMeans(env, input, auth);
    var c := FreshContext(env, input, auth);
    assert c.approvalContextHash == Some(input.decisionContextHash);
  }

  /** The hypotheses about the context and payload hashes can be met together, by the hashes of the code over one digest. */
  lemma HashHypothesesAreConsistent(env: Env)
    ensures var e := env.(context := c => D.ContextHash(S.Spell, c), payload := p => G.PayloadHash(S.Spell, p));
      Separates(e.context) && Separates(e.payload) && NoSelfHash(e)
  {
    S.SpellIsInjective();
    CodeHashesSeparate(S.Spell);
    forall c: D.HashContext ensures c.approvalContextHash != Some(D.ContextHash(S.Spell, c)) {
      HashIsLonger(c);
    }
  }

  /** A spelled context is longer than the hash it contains. */
  lemma HashIsLonger(c: D.HashContext)
    ensures c.approvalContextHash.Some? ==> |D.ContextHash(S.Spell, c)| > |c.approvalContextHash.value|
  {
    if c.approvalContextHash.Some? {
      var fs := D.ContextPreImage(c);
      D.ContextNames(c, c);
      J.CanonFieldsShape(fs);
      assert fs[9] == J.Field("approvalContextHash", J.JStr(c.approvalContextHash.value));
      S.TextIsShorter(J.CanonFields(fs), J.Field(fs[9].key, J.Canon(fs[9].value)));
    }
  }
}
