/**
 * What each call of the execution protocol answers and writes, for every world it can meet,
 * said of the call as a whole: which verdict or error comes back, what becomes of the status
 * of each request, and which rows are added.
 */
module ExecutionAnswers {
  import opened Wrappers
  import opened ExecutionProtocol
  import L = Ledger
  import I = Idempotency
  import D = DecisionEngine
  import E = PolicyEngine
  import G = TransactionGate
  import R = PolicyRules

  // ------------------------------------------------------------------- revalidation

  /** The key was registered by a call with another body. */
  predicate BodyDiffers(w: World, plan: Plan) {
    var key := RegistrationKey(plan.companyId, plan.key);
    key in w.registrations && w.registrations[key].requestHash != plan.bodyHash
  }

  ghost predicate HasRequest(w: World, plan: Plan) {
    exists q :: q in w.requests && IsRequestFor(w.requests[q], plan.companyId, plan.key)
  }

  /** A decision that is not ALLOW is handed on as it is, and nothing is touched. */
  lemma NotAllowedIsHandedOn(env: Env, w: World, input: RevalidateInput, auth: Authority)
    requires FreshDecision(env, input, auth).result != D.ALLOW
    ensures var d := FreshDecision(env, input, auth); var (w', r) := Revalidate(env, w, input, auth);
      w' == w && r.Ok? && r.value.result == d.result && r.value.determinant == d.determinant
      && r.value.request.None? && r.value.reservation.None?
  {
  }

  /** An allowed call whose key was registered by another body is a conflict, and nothing is touched. */
  lemma OtherBodyConflicts(env: Env, w: World, input: RevalidateInput, auth: Authority)
    requires FreshDecision(env, input, auth).result == D.ALLOW
    ensures var (w', r) := Revalidate(env, w, input, auth); var plan := PlanOf(env, input, auth);
      && (r == Err(IDEMPOTENCY_CONFLICT) ==> w' == w)
      && (BodyDiffers(w, plan) ==> r == Err(IDEMPOTENCY_CONFLICT))
  {
    OtherBodyFails(w, FreshDecision(env, input, auth), PlanOf(env, input, auth));
  }

  lemma OtherBodyFails(w: World, decision: D.Decision, plan: Plan)
    requires decision.result == D.ALLOW
    ensures var (w', r) := Proceed(w, decision, plan);
      (r == Err(IDEMPOTENCY_CONFLICT) ==> w' == w) && (BodyDiffers(w, plan) ==> r == Err(IDEMPOTENCY_CONFLICT))
  {
  }

  /** The answer, from whether the decision allows the call, the world before and the world after. */
  ghost predicate Answers(w: World, plan: Plan, allowed: bool, w': World, r: Result<Outcome>) {
    match r
    case Err(error) => error == IDEMPOTENCY_CONFLICT && allowed && BodyDiffers(w, plan)
    case Ok(o) =>
      && !(allowed && BodyDiffers(w, plan))
      && (o.result == D.ALLOW <==> allowed && HasRequest(w', plan))
      && (o.result == D.ALLOW ==>
            o.request.Some? && o.request.value in w'.requests && IsRequestFor(w'.requests[o.request.value], plan.companyId, plan.key))
  }

  lemma MintingAnswers(w: World, decision: D.Decision, plan: Plan)
    requires L.Inv(w.ledger) && Coherent(plan) && decision.result == D.ALLOW
    requires KeyIsFree(w, plan) && Fits(w.ledger, plan.reserve)
    ensures Answers(w, plan, true, Proceed(w, decision, plan).0, Proceed(w, decision, plan).1)
  {
    ProceedExactly(w, decision, plan);
    var (w', r) := Proceed(w, decision, plan);
    assert w'.requests[w.nextRequest] == plan.request;
  }

  lemma BudgetAnswers(w: World, decision: D.Decision, plan: Plan)
    requires L.Inv(w.ledger) && Coherent(plan) && decision.result == D.ALLOW
    requires KeyIsFree(w, plan) && !Fits(w.ledger, plan.reserve)
    ensures Proceed(w, decision, plan).1 == Ok(Outcome(D.DENY, D.BUDGET_EXCEEDED, None, None))
    ensures var w' := Proceed(w, decision, plan).0; w' == w.(registrations := w'.registrations)
  {
    ReserveMakesOne(w.ledger, plan.reserve);
  }

  lemma KnownRequestAnswers(w: World, decision: D.Decision, plan: Plan, q: Id)
    requires Inv(w) && decision.result == D.ALLOW && q in w.requests
    requires IsRequestFor(w.requests[q], plan.companyId, plan.key) && !BodyDiffers(w, plan)
    ensures Proceed(w, decision, plan) == (w, Ok(Outcome(D.ALLOW, D.ALLOW_IDEMPOTENT, Some(q), None)))
  {
    forall p | p in w.requests && p != q ensures !IsRequestFor(w.requests[p], plan.companyId, plan.key) {
      assert !SameKey(w.requests[p], w.requests[q]);
    }
    TakenKeyReplays(w, decision, plan, q);
  }

  lemma ProceedAnswers(w: World, decision: D.Decision, plan: Plan)
    requires Inv(w) && Coherent(plan)
    ensures Answers(w, plan, decision.result == D.ALLOW, Proceed(w, decision, plan).0, Proceed(w, decision, plan).1)
  {
    if decision.result == D.ALLOW && !BodyDiffers(w, plan) {
      if q :| q in w.requests && IsRequestFor(w.requests[q], plan.companyId, plan.key) {
        KnownRequestAnswers(w, decision, plan, q);
      } else if Fits(w.ledger, plan.reserve) {
        MintingAnswers(w, decision, plan);
      } else {
        BudgetAnswers(w, decision, plan);
      }
    }
  }

  /**
   * For every call: it fails only with IDEMPOTENCY_CONFLICT, exactly when it is allowed and
   * its key belongs to another body; and otherwise it answers ALLOW if and only if it is
   * allowed and its request exists afterwards.
   */
  lemma AllowIsAnsweredIffRequestExists(env: Env, w: World, input: RevalidateInput, auth: Authority)
    requires Inv(w)
    ensures var d := FreshDecision(env, input, auth); var plan := PlanOf(env, input, auth);
      var (w', r) := Revalidate(env, w, input, auth);
      && (r.Err? <==> d.result == D.ALLOW && BodyDiffers(w, plan)) && (r.Err? ==> r.error == IDEMPOTENCY_CONFLICT)
      && (r.Ok? ==> (r.value.result == D.ALLOW <==> d.result == D.ALLOW && HasRequest(w', plan)))
  {
    PlanIsCoherent(env, input, auth);
    ProceedAnswers(w, FreshDecision(env, input, auth), PlanOf(env, input, auth));
  }

  /** An allowed call with a free key whose amount does not fit is a DENY for its budget; all it leaves is the registration. */
  lemma OverBudgetIsDenied(env: Env, w: World, input: RevalidateInput, auth: Authority)
    requires Inv(w) && FreshDecision(env, input, auth).result == D.ALLOW
    requires var plan := PlanOf(env, input, auth); KeyIsFree(w, plan) && !Fits(w.ledger, plan.reserve)
    ensures var (w', r) := Revalidate(env, w, input, auth);
      && r == Ok(Outcome(D.DENY, D.BUDGET_EXCEEDED, None, None))
      && w' == w.(registrations := w'.registrations)
  {
    PlanIsCoherent(env, input, auth);
    BudgetAnswers(w, FreshDecision(env, input, auth), PlanOf(env, input, auth));
  }

  /** An allowed call for a request that exists answers with that request and touches nothing. */
  lemma KnownRequestIsAnswered(env: Env, w: World, input: RevalidateInput, auth: Authority, q: Id)
    requires Inv(w) && FreshDecision(env, input, auth).result == D.ALLOW && q in w.requests
    requires var plan := PlanOf(env, input, auth); IsRequestFor(w.requests[q], plan.companyId, plan.key) && !BodyDiffers(w, plan)
    ensures Revalidate(env, w, input, auth) == (w, Ok(Outcome(D.ALLOW, D.ALLOW_IDEMPOTENT, Some(q), None)))
  {
    KnownRequestAnswers(w, FreshDecision(env, input, auth), PlanOf(env, input, auth), q);
  }

  /** A minted request carries the terms of its call. */
  lemma MintedRequestCarriesTheCall(env: Env, w: World, input: RevalidateInput, auth: Authority)
    requires Inv(w) && FreshDecision(env, input, auth).result == D.ALLOW
    requires var plan := PlanOf(env, input, auth); KeyIsFree(w, plan) && Fits(w.ledger, plan.reserve)
    ensures var (w', r) := Revalidate(env, w, input, auth);
      && r.Ok? && r.value.request.Some? && r.value.request.value in w'.requests && r.value.request.value !in w.requests
      && r.value.reservation.Some? && r.value.reservation.value in w'.ledger.reservations
      && var q := w'.requests[r.value.request.value]; var held := w'.ledger.reservations[r.value.reservation.value];
         && q.companyId == input.companyId && q.agentId == input.agentId && q.decisionId == input.decisionId
         && q.transactionId == input.transactionId && q.network == input.networks.actual
         && q.status == AUTHORIZED && q.authorizedAt == input.now
         && q.idempotencyKey == env.payload(G.PayloadOf(input.transactionId, input.networks.actual, input.analysis))
         && (auth.version.Some? ==> q.policyVersionId == Some(auth.version.value.id))
         && q.contextHash == env.context(FreshContext(env, input, auth))
         && RegistrationKey(input.companyId, q.idempotencyKey) in w'.registrations
         && w'.registrations[RegistrationKey(input.companyId, q.idempotencyKey)].requestHash
              == env.body(Body(input.decisionId, input.transactionId, input.amount, input.analysis.recipient, input.networks.actual))
         && held.companyId == input.companyId && held.amount == input.amount && held.status == L.RESERVED
         && held.executionRequestId == r.value.request && held.accountId in w'.ledger.accounts
         && w'.ledger.accounts[held.accountId].key
              == L.AccountKey(input.companyId, L.AGENT, input.scopeKey, input.asset, Some(input.networks.actual))
  {
    PlanIsCoherent(env, input, auth);
    MintsExactlyWhenAllowed(env, w, input, auth);
    ProceedRegisters(w, FreshDecision(env, input, auth), PlanOf(env, input, auth));
    AllowedHasAVersion(env, input, auth);
  }

  /** The context that is hashed is of this call, part by part. */
  lemma ContextIsOfTheCall(env: Env, input: RevalidateInput, auth: Authority)
    requires FreshDecision(env, input, auth).result == D.ALLOW
    ensures var c := FreshContext(env, input, auth);
      && c.intentId == input.intentId && c.proposalId == input.proposal.proposalId && c.securityAssessmentId == input.assessmentId
      && auth.version.Some? && auth.agent.Some? && Some(c.policyId) == auth.agent.value.activePolicyId && c.policyVersion == auth.version.value.version
      && c.policyEvaluationHash == env.evaluation(E.Evaluate(env.idOrder, c.policyId, c.policyVersion, auth.version.value.rules,
                                                             PolicyContext(input, auth.capability)).hashed)
      && c.transactionId == Some(input.transactionId) && c.simulationId == Some(input.simulation.transactionId)
      && c.transactionPayloadHash == Some(env.payload(G.PayloadOf(input.transactionId, input.networks.actual, input.analysis)))
      && c.approvalContextHash == if R.Given(input.approvalId) then Some(input.decisionContextHash) else None
  {
    AllowedHasAVersion(env, input, auth);
  }

  /** The rules are evaluated on the proposal: its action, amount, currency, network and recipient, at this time. */
  lemma PoliciesSeeTheProposal(input: RevalidateInput, capability: Option<ActiveCapability>)
    ensures var ctx := PolicyContext(input, capability); var p := input.proposal; var t := ctx.transaction;
      && t.action == p.actionType && t.network == p.network && t.category.None? && ctx.now == input.now
      && (p.amount.Some? ==> t.amount == Some(p.amount.value.amount.units) && t.asset == Some(p.amount.value.currency))
      && (p.amount.None? ==> t.amount.None? && t.asset.None?)
      && t.recipient == G.ProposalRecipient(p)
      && ctx.capabilityExpiresAt == (if capability.Some? then capability.value.expiresAt else None)
      && ctx.cumulativeSpent == map[] && ctx.cumulativeByKey == map[] && ctx.knownRecipients == []
      && ctx.recentTransactions == [] && ctx.trajectoryEventTypes.None?
  {
  }

  lemma AllowedHasAVersion(env: Env, input: RevalidateInput, auth: Authority)
    requires FreshDecision(env, input, auth).result == D.ALLOW
    ensures auth.agent.Some? && R.Given(auth.agent.value.activePolicyId) && auth.version.Some?
  {
  }

  // ------------------------------------------------------------------ executor answers

  /** The status of request `q` after a call, for every call there is. */
  function StatusAfter(w: World, op: Op, q: Id): RequestStatus
    requires q in w.requests
  {
    if op.OpIngest? && Accepted(w, op.companyId, op.result, q) then op.result.status
    else if op.OpReconcile? && op.q == q && w.requests[q].companyId == op.companyId && op.answer in {CONFIRMED, FAILED} then op.answer
    else w.requests[q].status
  }

  /** Every call leaves every request, and its status is exactly the one the call gives it. */
  lemma StepMovesRequest(env: Env, w: World, op: Op, q: Id)
    requires Inv(w) && q in w.requests
    ensures q in Step(env, w, op).requests
    ensures Step(env, w, op).requests[q] == w.requests[q].(status := StatusAfter(w, op, q))
  {
    if op.OpRevalidate? {
      RevalidateKeepsRequest(env, w, op.input, op.auth, q);
    } else {
      AnswersMoveRequest(env, w, op, q);
    }
  }

  lemma AnswersMoveRequest(env: Env, w: World, op: Op, q: Id)
    requires !op.OpRevalidate? && q in w.requests
    ensures q in Step(env, w, op).requests
    ensures Step(env, w, op).requests[q] == w.requests[q].(status := StatusAfter(w, op, q))
  {
    match op
    case OpEnsure(_, _, _) =>
    case OpIngest(companyId, result) => IngestWrites(w, companyId, result);
    case OpReconcile(companyId, p, answer) => ReconcileWrites(w, companyId, p, answer);
    case OpVerify(companyId, p, authorized, actual, clientVerified) => VerifyWrites(w, companyId, p, authorized, actual, clientVerified);
  }

  lemma RevalidateKeepsRequest(env: Env, w: World, input: RevalidateInput, auth: Authority, q: Id)
    requires Inv(w) && q in w.requests
    ensures var w' := Revalidate(env, w, input, auth).0; q in w'.requests && w'.requests[q] == w.requests[q]
  {
    PlanIsCoherent(env, input, auth);
    ProceedKeepsRequest(w, FreshDecision(env, input, auth), PlanOf(env, input, auth), q);
  }

  lemma ProceedKeepsRequest(w: World, decision: D.Decision, plan: Plan, q: Id)
    requires Inv(w) && Coherent(plan) && q in w.requests
    ensures var w' := Proceed(w, decision, plan).0; q in w'.requests && w'.requests[q] == w.requests[q]
  {
    ProceedExactly(w, decision, plan);
  }

  lemma ReconcileWrites(w: World, companyId: string, q: Id, answer: RequestStatus)
    ensures Reconcile(w, companyId, q, answer).0.requests ==
      if q in w.requests && w.requests[q].companyId == companyId && answer in {CONFIRMED, FAILED}
      then w.requests[q := w.requests[q].(status := answer)] else w.requests
  {
  }

  lemma VerifyWrites(w: World, companyId: string, q: Id, authorized: Receipt, actual: Receipt, clientVerified: bool)
    ensures Verify(w, companyId, q, authorized, actual, clientVerified).0.requests == w.requests
  {
  }

  /** An accepted result adds the one row that carries it; no other call adds a result row. */
  lemma StepAddsResult(env: Env, w: World, op: Op)
    ensures Step(env, w, op).results == w.results +
      (if op.OpIngest? && op.result.executionId in w.requests && Accepted(w, op.companyId, op.result, op.result.executionId)
       then [ResultRow(op.result.executionId, op.result.status, op.result.chain, op.result.transactionHash)] else [])
  {
    assert w.results + [] == w.results;
    match op
    case OpEnsure(_, _, _) =>
    case OpRevalidate(input, auth) => RevalidateAddsNoRows(env, w, input, auth);
    case OpIngest(companyId, result) => IngestAddsRow(w, companyId, result);
    case OpReconcile(companyId, p, answer) => ReconcileAddsNoRows(w, companyId, p, answer);
    case OpVerify(companyId, p, authorized, actual, clientVerified) => VerifyAddsRow(w, companyId, p, authorized, actual, clientVerified);
  }

  lemma IngestAddsRow(w: World, companyId: string, input: ResultInput)
    ensures var w' := Ingest(w, companyId, input).0; var q := input.executionId;
      && w'.verifications == w.verifications
      && w'.results == if q in w.requests && Accepted(w, companyId, input, q)
         then w.results + [ResultRow(q, input.status, input.chain, input.transactionHash)] else w.results
  {
  }

  lemma ReconcileAddsNoRows(w: World, companyId: string, q: Id, answer: RequestStatus)
    ensures var w' := Reconcile(w, companyId, q, answer).0; w'.results == w.results && w'.verifications == w.verifications
  {
  }

  lemma VerifyAddsRow(w: World, companyId: string, q: Id, authorized: Receipt, actual: Receipt, clientVerified: bool)
    ensures var w' := Verify(w, companyId, q, authorized, actual, clientVerified).0;
      && w'.results == w.results
      && |w'.verifications| == |w.verifications| + (if q in w.requests && w.requests[q].companyId == companyId then 1 else 0)
  {
  }

  lemma RevalidateAddsNoRows(env: Env, w: World, input: RevalidateInput, auth: Authority)
    ensures var w' := Revalidate(env, w, input, auth).0; w'.results == w.results && w'.verifications == w.verifications
  {
    ProceedAddsNoRows(w, FreshDecision(env, input, auth), PlanOf(env, input, auth));
  }

  lemma ProceedAddsNoRows(w: World, decision: D.Decision, plan: Plan)
    ensures var w' := Proceed(w, decision, plan).0; w'.results == w.results && w'.verifications == w.verifications
  {
  }

  lemma IngestWrites(w: World, companyId: string, input: ResultInput)
    ensures var w' := Ingest(w, companyId, input).0; var q := input.executionId;
      w'.requests == if q in w.requests && Accepted(w, companyId, input, q) then w.requests[q := w.requests[q].(status := input.status)] else w.requests
  {
  }

  /** What a result is answered: unauthenticated, unknown to the company, on another network, or accepted. */
  lemma IngestAnswers(w: World, companyId: string, input: ResultInput)
    ensures var (w', r) := Ingest(w, companyId, input); var q := input.executionId;
      && (r == Err(AUTHENTICATION_ERROR) <==> !input.authenticated)
      && (r == Err(EXECUTION_FAILED) <==> input.authenticated && !(q in w.requests && w.requests[q].companyId == companyId))
      && (r == Err(TRANSACTION_MISMATCH) <==>
            input.authenticated && q in w.requests && w.requests[q].companyId == companyId && w.requests[q].network != input.chain)
      && (r.Err? ==> w' == w && r.error in {AUTHENTICATION_ERROR, EXECUTION_FAILED, TRANSACTION_MISMATCH})
      && (r.Ok? ==> r.value == ResultRow(q, input.status, input.chain, input.transactionHash) && r.value in w'.results)
  {
    var w1 := w.(results := w.results + [ResultRow(input.executionId, input.status, input.chain, input.transactionHash)]);
    assert w1.results[|w.results|] in w1.results;
  }

  /** What a reconciliation is answered. */
  lemma ReconcileAnswers(w: World, companyId: string, q: Id, answer: RequestStatus)
    ensures var (w', r) := Reconcile(w, companyId, q, answer);
      && (r == Err(EXECUTION_FAILED) <==> !(q in w.requests && w.requests[q].companyId == companyId))
      && (r.Err? ==> r.error == EXECUTION_FAILED && w' == w)
      && (r.Ok? ==> (r.value == R_CONFIRMED <==> answer == CONFIRMED) && (r.value == R_FAILED <==> answer == FAILED))
      && (r == Ok(STILL_UNKNOWN) ==> w' == w)
  {
  }

  /**
   * A verification of a known request adds the one row that says what was compared and what
   * differs, each difference once, and answers committed if and only if the reservation of
   * the request was RESERVED and is COMMITTED now.
   */
  lemma VerifyAnswers(w: World, companyId: string, q: Id, r: L.Id, authorized: Receipt, actual: Receipt, clientVerified: bool)
    requires Inv(w) && Known(w, companyId, q) && Backs(w.ledger.reservations, r, q)
    ensures var (w', answer) := Verify(w, companyId, q, authorized, actual, clientVerified);
      && answer.Ok? && w'.requests == w.requests && w'.results == w.results
      && var (v, committed) := answer.value;
         && w'.verifications == w.verifications + [v] && v.requestId == q && v.expected == authorized && v.actual == actual
         && (v.verified <==> authorized == actual && clientVerified)
         && SaysWhatDiffers(v.discrepancies, authorized, actual, clientVerified)
         && r in w'.ledger.reservations
         && (committed <==> w.ledger.reservations[r].status == L.RESERVED && w'.ledger.reservations[r].status == L.COMMITTED)
         && (committed <==> v.verified && w.ledger.reservations[r].status == L.RESERVED)
  {
    NoDiscrepancies(authorized, actual, clientVerified);
    DiscrepanciesSayWhatDiffers(authorized, actual, clientVerified);
    VerifyMoves(w, companyId, q, authorized, actual, clientVerified, r, q);
    var v := VerificationOf(q, authorized, actual, clientVerified);
    MoreVerificationsKeepTables(w, v);
    LookupFinds(w.(verifications := w.verifications + [v]), companyId, r, q, {L.RESERVED});
  }

  lemma VerifyRefuses(w: World, companyId: string, q: Id, authorized: Receipt, actual: Receipt, clientVerified: bool)
    ensures var (w', r) := Verify(w, companyId, q, authorized, actual, clientVerified);
      && (r.Err? <==> !(q in w.requests && w.requests[q].companyId == companyId)) && (r.Err? ==> r.error == EXECUTION_FAILED && w' == w)
  {
  }

  predicate SaysWhatDiffers(ds: seq<Discrepancy>, authorized: Receipt, actual: Receipt, clientVerified: bool) {
    && (RECIPIENT in ds <==> authorized.recipient != actual.recipient)
    && (ASSET in ds <==> authorized.asset != actual.asset)
    && (AMOUNT in ds <==> authorized.amount != actual.amount)
    && (NETWORK in ds <==> authorized.network != actual.network)
    && (EXECUTOR_UNVERIFIED in ds <==> !clientVerified)
    && forall i, j :: 0 <= i < j < |ds| ==> ds[i] != ds[j]
  }

  lemma DiscrepanciesSayWhatDiffers(authorized: Receipt, actual: Receipt, clientVerified: bool)
    ensures SaysWhatDiffers(Discrepancies(authorized, actual, clientVerified), authorized, actual, clientVerified)
  {
    DiscrepanciesAreNoted(authorized, actual, clientVerified);
    var ds := ReceiptNoted(authorized, actual);
    assert Discrepancies(authorized, actual, clientVerified) == Noted(ds, !clientVerified, EXECUTOR_UNVERIFIED);
  }

  /** The four entries about the receipts. */
  function ReceiptNoted(a: Receipt, b: Receipt): (ds: seq<Discrepancy>)
    ensures (RECIPIENT in ds <==> a.recipient != b.recipient) && (ASSET in ds <==> a.asset != b.asset)
    ensures (AMOUNT in ds <==> a.amount != b.amount) && (NETWORK in ds <==> a.network != b.network)
    ensures EXECUTOR_UNVERIFIED !in ds && forall i, j :: 0 <= i < j < |ds| ==> ds[i] != ds[j]
  {
    var d1 := if a.recipient != b.recipient then [RECIPIENT] else [];
    var d2 := Noted(d1, a.asset != b.asset, ASSET);
    var d3 := Noted(d2, a.amount != b.amount, AMOUNT);
    Noted(d3, a.network != b.network, NETWORK)
  }

  lemma DiscrepanciesAreNoted(a: Receipt, b: Receipt, clientVerified: bool)
    ensures Discrepancies(a, b, clientVerified) == Noted(ReceiptNoted(a, b), !clientVerified, EXECUTOR_UNVERIFIED)
  {
  }

  /** One more entry, if it applies. */
  function Noted(ds: seq<Discrepancy>, differs: bool, d: Discrepancy): (r: seq<Discrepancy>)
    ensures forall e :: e in r <==> e in ds || (differs && e == d)
    ensures d !in ds && (forall i, j :: 0 <= i < j < |ds| ==> ds[i] != ds[j]) ==> forall i, j :: 0 <= i < j < |r| ==> r[i] != r[j]
  {
    ds + (if differs then [d] else [])
  }

  /** No call but a verification of a known request adds a verification. */
  lemma StepAddsVerification(env: Env, w: World, op: Op)
    ensures |Step(env, w, op).verifications| == |w.verifications| +
      (if op.OpVerify? && op.q in w.requests && w.requests[op.q].companyId == op.companyId then 1 else 0)
  {
    match op
    case OpEnsure(_, _, _) =>
    case OpRevalidate(input, auth) => RevalidateAddsNoRows(env, w, input, auth);
    case OpIngest(companyId, result) => IngestAddsRow(w, companyId, result);
    case OpReconcile(companyId, p, answer) => ReconcileAddsNoRows(w, companyId, p, answer);
    case OpVerify(companyId, p, authorized, actual, clientVerified) => VerifyAddsRow(w, companyId, p, authorized, actual, clientVerified);
  }
}
