/**
 * The decision engine's precedence ladder, the approval state it is fed and the context
 * hash that binds a decision to what it was taken on.
 */
module DecisionEngine {
  import opened Wrappers
  import opened JsonCanonical
  import P = PolicyEngine
  import G = TransactionGate
  import N = DecimalStrings

  datatype Verdict = ALLOW | REVIEW | DENY

  datatype ApprovalState = NONE | PENDING | APPROVED | DENIED | EXPIRED | MISMATCH

  datatype Advice = PROCEED_CANDIDATE | MONITOR | ADVISE_REVIEW | DENY_RECOMMENDED

  datatype Input = Input(
    platformInvariantViolated: bool,
    agentActive: bool, intentValid: bool, capabilityValid: bool, constitutionCompatible: bool,
    policyStatus: P.Status,
    gateMatches: Option<bool>,
    simulationRequired: bool, simulationOutcome: Option<G.SimulationOutcome>, simulationBinding: Option<G.Binding>,
    contextStale: bool,
    approval: Option<ApprovalState>,
    advice: Option<Advice>)

  datatype Determinant =
    | PLATFORM_INVARIANT | AGENT_INACTIVE | INTENT_INVALID | CONSTITUTION_INCOMPATIBLE | CAPABILITY_INVALID
    | POLICY_VIOLATION | TRANSACTION_MISMATCH | SIMULATION_BINDING_INVALID | SIMULATION_DENY | SIMULATION_REQUIRED
    | CONTEXT_STALE | APPROVAL_DENIED | APPROVAL_EXPIRED | APPROVAL_MISMATCH | APPROVAL_REQUIRED
    | POLICY_REVIEW | AI_ADVISORY_REVIEW | SIMULATION_REVIEW | ALLOWED | ALLOW_IDEMPOTENT | BUDGET_EXCEEDED

  datatype Decision = Decision(result: Verdict, determinant: Determinant)

  function Decide(input: Input): Decision {
    if input.platformInvariantViolated then Decision(DENY, PLATFORM_INVARIANT)
    else if !input.agentActive then Decision(DENY, AGENT_INACTIVE)
    else if !input.intentValid then Decision(DENY, INTENT_INVALID)
    else if !input.constitutionCompatible then Decision(DENY, CONSTITUTION_INCOMPATIBLE)
    else if !input.capabilityValid then Decision(DENY, Determinant.CAPABILITY_INVALID)
    else if input.policyStatus == P.FAIL then Decision(DENY, Determinant.POLICY_VIOLATION)
    else if input.gateMatches == Some(false) then Decision(DENY, Determinant.TRANSACTION_MISMATCH)
    else if input.simulationBinding.Some? && input.simulationBinding.value != G.BOUND then
      Decision(DENY, SIMULATION_BINDING_INVALID)
    else if input.simulationOutcome == Some(G.REJECT) then Decision(DENY, SIMULATION_DENY)
    else if input.simulationRequired && input.simulationOutcome in {None, Some(G.FAIL_CLOSED)} then
      Decision(DENY, SIMULATION_REQUIRED)
    else if input.contextStale then Decision(DENY, CONTEXT_STALE)
    else if input.approval == Some(DENIED) then Decision(DENY, APPROVAL_DENIED)
    else if input.approval == Some(EXPIRED) then Decision(DENY, Determinant.APPROVAL_EXPIRED)
    else if input.approval == Some(MISMATCH) then Decision(DENY, Determinant.APPROVAL_MISMATCH)
    else if input.approval in {Some(PENDING), Some(NONE)} then Decision(REVIEW, APPROVAL_REQUIRED)
    else if input.policyStatus == P.REVIEW_NEEDED then Decision(REVIEW, POLICY_REVIEW)
    else if input.advice in {Some(DENY_RECOMMENDED), Some(ADVISE_REVIEW)} then Decision(REVIEW, AI_ADVISORY_REVIEW)
    else if input.simulationOutcome == Some(G.FLAG) then Decision(REVIEW, SIMULATION_REVIEW)
    else Decision(ALLOW, ALLOWED)
  }

  // ------------------------------------------------- the ladder as independent votes

  /** The signals a decision is taken on. */
  datatype Signal = PLATFORM | AUTHORITY | POLICY | GATE | BINDING | SIMULATION | FRESHNESS | APPROVAL | AI

  /** What each signal says by itself, not looking at any other. */
  function Vote(input: Input, signal: Signal): Verdict {
    match signal
    case PLATFORM => if input.platformInvariantViolated then DENY else ALLOW
    case AUTHORITY =>
      if input.agentActive && input.intentValid && input.capabilityValid && input.constitutionCompatible then ALLOW else DENY
    case POLICY => (match input.policyStatus case FAIL => DENY case REVIEW_NEEDED => REVIEW case PASSED => ALLOW)
    case GATE => if input.gateMatches == Some(false) then DENY else ALLOW
    case BINDING => if input.simulationBinding in {None, Some(G.BOUND)} then ALLOW else DENY
    case SIMULATION => (
      match input.simulationOutcome
      case None => if input.simulationRequired then DENY else ALLOW
      case Some(REJECT) => DENY
      case Some(FLAG) => REVIEW
      case Some(FAIL_CLOSED) => if input.simulationRequired then DENY else ALLOW
      case Some(CONTINUE) => ALLOW)
    case FRESHNESS => if input.contextStale then DENY else ALLOW
    case APPROVAL => (
      match input.approval
      case None => ALLOW
      case Some(APPROVED) => ALLOW
      case Some(PENDING) => REVIEW
      case Some(NONE) => REVIEW
      case Some(_) => DENY)
    case AI => if input.advice in {Some(DENY_RECOMMENDED), Some(ADVISE_REVIEW)} then REVIEW else ALLOW
  }

  /** The ladder's verdict is the strictest of the votes; its order only picks the reason given. */
  lemma DecideIsStrictestVote(input: Input)
    ensures Decide(input).result == DENY <==> exists s :: Vote(input, s) == DENY
    ensures Decide(input).result == ALLOW <==> forall s :: Vote(input, s) == ALLOW
  {
    SomeVoteExplains(input);
    if exists s :: Vote(input, s) == DENY {
      var s :| Vote(input, s) == DENY;
      DenyingVoteDenies(input, s);
    }
  }

  lemma SomeVoteExplains(input: Input)
    ensures Decide(input).result != ALLOW ==> exists s :: Vote(input, s) == Decide(input).result
    ensures Decide(input).result == ALLOW ==> forall s :: Vote(input, s) == ALLOW
  {
    var d := Decide(input);
    var s := Speaker(d.determinant);
    assert d.result != ALLOW ==> Vote(input, s) == d.result;
  }

  lemma DenyingVoteDenies(input: Input, s: Signal)
    requires Vote(input, s) == DENY
    ensures Decide(input).result == DENY
  {
    match s
    case PLATFORM => assert input.platformInvariantViolated;
    case AUTHORITY =>
    case POLICY => assert input.policyStatus == P.FAIL;
    case GATE =>
    case BINDING => assert input.simulationBinding.Some? && input.simulationBinding.value != G.BOUND;
    case SIMULATION =>
    case FRESHNESS =>
    case APPROVAL => assert input.approval in {Some(DENIED), Some(EXPIRED), Some(MISMATCH)};
    case AI =>
  }

  /** The signal a determinant names. */
  function Speaker(d: Determinant): Signal {
    match d
    case PLATFORM_INVARIANT => PLATFORM
    case POLICY_VIOLATION => POLICY
    case POLICY_REVIEW => POLICY
    case TRANSACTION_MISMATCH => GATE
    case SIMULATION_BINDING_INVALID => BINDING
    case SIMULATION_DENY => SIMULATION
    case SIMULATION_REQUIRED => SIMULATION
    case SIMULATION_REVIEW => SIMULATION
    case CONTEXT_STALE => FRESHNESS
    case APPROVAL_DENIED => APPROVAL
    case APPROVAL_EXPIRED => APPROVAL
    case APPROVAL_MISMATCH => APPROVAL
    case APPROVAL_REQUIRED => APPROVAL
    case AI_ADVISORY_REVIEW => AI
    case _ => AUTHORITY
  }

  function Strictness(v: Verdict): nat {
    match v case ALLOW => 0 case REVIEW => 1 case DENY => 2
  }

  /** Advice only ever moves ALLOW to REVIEW. */
  lemma AdviceNeverAuthorizes(input: Input, advice: Option<Advice>)
    ensures var unadvised := Decide(input.(advice := None)); var advised := Decide(input.(advice := advice));
      && Strictness(unadvised.result) <= Strictness(advised.result)
      && (advised.result == DENY <==> unadvised.result == DENY)
      && (advised.result == DENY ==> advised == unadvised)
  {
  }

  /** A hard failure decides alone: no approval and no advice changes the verdict or the reason. */
  lemma HardFailureIsFinal(input: Input, s: Signal, approval: Option<ApprovalState>, advice: Option<Advice>)
    requires s in {PLATFORM, AUTHORITY, POLICY, GATE, BINDING, SIMULATION, FRESHNESS} && Vote(input, s) == DENY
    ensures Decide(input).result == DENY && Decide(input.(approval := approval, advice := advice)) == Decide(input)
  {
  }

  // ------------------------------------------------------------------ approval state

  datatype ApprovalStatus = A_PENDING | A_APPROVED | A_DENIED | A_EXPIRED | A_CANCELLED

  datatype ApprovalRequest = ApprovalRequest(status: ApprovalStatus, expiresAt: int, contextHash: string)

  function ResolveApprovalState(request: Option<ApprovalRequest>, currentContextHash: string, now: int): ApprovalState {
    if request.None? then NONE
    else
      var r := request.value;
      if r.status == A_EXPIRED || (r.status == A_PENDING && r.expiresAt <= now) then EXPIRED
      else if r.status == A_DENIED || r.status == A_CANCELLED then DENIED
      else if r.status == A_PENDING then PENDING
      else if r.contextHash != currentContextHash then MISMATCH
      else APPROVED
  }

  // -------------------------------------------------------------------- context hash

  datatype HashContext = HashContext(
    intentId: string, proposalId: string, policyId: string, policyVersion: nat, policyEvaluationHash: string,
    securityAssessmentId: string, transactionId: Option<string>, transactionPayloadHash: Option<string>,
    simulationId: Option<string>, approvalContextHash: Option<string>)

  function ContextPreImage(c: HashContext): seq<Field> {
    [Field("intentId", JStr(c.intentId)), Field("proposalId", JStr(c.proposalId)), Field("policyId", JStr(c.policyId)),
     Field("policyVersion", JNum(N.Digits(c.policyVersion))), Field("policyEvaluationHash", JStr(c.policyEvaluationHash)),
     Field("securityAssessmentId", JStr(c.securityAssessmentId)), Field("transactionId", G.Nullable(c.transactionId)),
     Field("transactionPayloadHash", G.Nullable(c.transactionPayloadHash)), Field("simulationId", G.Nullable(c.simulationId)),
     Field("approvalContextHash", G.Nullable(c.approvalContextHash))]
  }

  function ContextHash(digest: Json -> string, c: HashContext): string {
    Hash(digest, JObj(ContextPreImage(c)))
  }

  lemma DistinctNames(fs: seq<Field>)
    requires |fs| == 10 && fs[0].key == "intentId" && fs[1].key == "proposalId" && fs[2].key == "policyId"
    requires fs[3].key == "policyVersion" && fs[4].key == "policyEvaluationHash" && fs[5].key == "securityAssessmentId"
    requires fs[6].key == "transactionId" && fs[7].key == "transactionPayloadHash" && fs[8].key == "simulationId"
    requires fs[9].key == "approvalContextHash"
    ensures DistinctKeys(fs) && forall i :: 0 <= i < |fs| ==> fs[i].key != PROTO
  {
    assert |fs[0].key| == 8 && |fs[1].key| == 10 && |fs[2].key| == 8 && |fs[3].key| == 13 && |fs[4].key| == 20;
    assert |fs[5].key| == 20 && |fs[6].key| == 13 && |fs[7].key| == 22 && |fs[8].key| == 12 && |fs[9].key| == 19;
    assert fs[0].key[0] == 'i' && fs[2].key[0] == 'p' && fs[3].key[0] == 'p' && fs[6].key[0] == 't';
    assert fs[4].key[0] == 'p' && fs[5].key[0] == 's' && |PROTO| == 9;
  }

  lemma ContextNames(c: HashContext, d: HashContext)
    ensures var fs, gs := ContextPreImage(c), ContextPreImage(d);
      |fs| == |gs| == 10 && DistinctKeys(fs) && forall i :: 0 <= i < |fs| ==> fs[i].key == gs[i].key && fs[i].key != PROTO
  {
    DistinctNames(ContextPreImage(c));
  }

  lemma FieldsSayAll(c: HashContext, d: HashContext)
    requires forall i :: 0 <= i < 10 ==> Canon(ContextPreImage(c)[i].value) == Canon(ContextPreImage(d)[i].value)
    ensures c == d
  {
    var fs, gs := ContextPreImage(c), ContextPreImage(d);
    assert Canon(fs[0].value) == Canon(gs[0].value) && Canon(fs[1].value) == Canon(gs[1].value);
    assert Canon(fs[2].value) == Canon(gs[2].value) && Canon(fs[3].value) == Canon(gs[3].value);
    assert Canon(fs[4].value) == Canon(gs[4].value) && Canon(fs[5].value) == Canon(gs[5].value);
    assert Canon(fs[6].value) == Canon(gs[6].value) && Canon(fs[7].value) == Canon(gs[7].value);
    assert Canon(fs[8].value) == Canon(gs[8].value) && Canon(fs[9].value) == Canon(gs[9].value);
    N.NumeralIsInjective(c.policyVersion, d.policyVersion);
    G.CanonOfNullable(c.transactionId, d.transactionId);
    G.CanonOfNullable(c.transactionPayloadHash, d.transactionPayloadHash);
    G.CanonOfNullable(c.simulationId, d.simulationId);
    G.CanonOfNullable(c.approvalContextHash, d.approvalContextHash);
  }

  /** Same context, same hash; any material change, another hash (for an injective digest). */
  lemma ContextHashSeparates(digest: Json -> string, c: HashContext, d: HashContext)
    requires Injective(digest)
    ensures ContextHash(digest, c) == ContextHash(digest, d) <==> c == d
  {
    if ContextHash(digest, c) == ContextHash(digest, d) {
      ContextNames(c, d);
      HashedRecordsAgree(digest, ContextPreImage(c), ContextPreImage(d));
      FieldsSayAll(c, d);
    }
  }

  // ---------------------------------------------------------------- the ladder as a list

  /** A reason and whether it applies. */
  datatype Reason = Reason(applies: bool, decision: Decision)

  /** The reasons, the first in precedence first. */
  function Reasons(i: Input): seq<Reason> {
    [Reason(i.platformInvariantViolated, Decision(DENY, PLATFORM_INVARIANT)),
     Reason(!i.agentActive, Decision(DENY, AGENT_INACTIVE)),
     Reason(!i.intentValid, Decision(DENY, INTENT_INVALID)),
     Reason(!i.constitutionCompatible, Decision(DENY, CONSTITUTION_INCOMPATIBLE)),
     Reason(!i.capabilityValid, Decision(DENY, Determinant.CAPABILITY_INVALID)),
     Reason(i.policyStatus == P.FAIL, Decision(DENY, Determinant.POLICY_VIOLATION)),
     Reason(i.gateMatches == Some(false), Decision(DENY, Determinant.TRANSACTION_MISMATCH)),
     Reason(i.simulationBinding.Some? && i.simulationBinding.value != G.BOUND, Decision(DENY, SIMULATION_BINDING_INVALID)),
     Reason(i.simulationOutcome == Some(G.REJECT), Decision(DENY, SIMULATION_DENY)),
     Reason(i.simulationRequired && i.simulationOutcome in {None, Some(G.FAIL_CLOSED)}, Decision(DENY, SIMULATION_REQUIRED)),
     Reason(i.contextStale, Decision(DENY, CONTEXT_STALE)),
     Reason(i.approval == Some(DENIED), Decision(DENY, APPROVAL_DENIED)),
     Reason(i.approval == Some(EXPIRED), Decision(DENY, Determinant.APPROVAL_EXPIRED)),
     Reason(i.approval == Some(MISMATCH), Decision(DENY, Determinant.APPROVAL_MISMATCH)),
     Reason(i.approval in {Some(PENDING), Some(NONE)}, Decision(REVIEW, APPROVAL_REQUIRED)),
     Reason(i.policyStatus == P.REVIEW_NEEDED, Decision(REVIEW, POLICY_REVIEW)),
     Reason(i.advice in {Some(DENY_RECOMMENDED), Some(ADVISE_REVIEW)}, Decision(REVIEW, AI_ADVISORY_REVIEW)),
     Reason(i.simulationOutcome == Some(G.FLAG), Decision(REVIEW, SIMULATION_REVIEW)),
     Reason(true, Decision(ALLOW, ALLOWED))]
  }

  /** The decision, verdict and reason, is that of the first reason that applies. */
  lemma FirstReasonDecides(i: Input, k: nat)
    requires k < |Reasons(i)| && Reasons(i)[k].applies && forall j :: 0 <= j < k ==> !Reasons(i)[j].applies
    ensures Decide(i) == Reasons(i)[k].decision
  {
    var rs := Reasons(i);
    // Each reason in turn: it does not apply and the next one may, or it decides.
    assert k > 0 ==> !rs[0].applies;
    assert k > 1 ==> !rs[1].applies;
    assert k > 2 ==> !rs[2].applies;
    assert k > 3 ==> !rs[3].applies;
    assert k > 4 ==> !rs[4].applies;
    assert k > 5 ==> !rs[5].applies;
    assert k > 6 ==> !rs[6].applies;
    assert k > 7 ==> !rs[7].applies;
    assert k > 8 ==> !rs[8].applies;
    assert k > 9 ==> !rs[9].applies;
    assert k > 10 ==> !rs[10].applies;
    assert k > 11 ==> !rs[11].applies;
    assert k > 12 ==> !rs[12].applies;
    assert k > 13 ==> !rs[13].applies;
    assert k > 14 ==> !rs[14].applies;
    assert k > 15 ==> !rs[15].applies;
    assert k > 16 ==> !rs[16].applies;
    assert k > 17 ==> !rs[17].applies;
  }

  /** What the engine is told of a named approval. */
  lemma ApprovalStateMeans(request: Option<ApprovalRequest>, currentContextHash: string, now: int)
    ensures var state := ResolveApprovalState(request, currentContextHash, now);
      && (state == NONE <==> request.None?)
      && (request.Some? ==> var r := request.value; var lapsed := r.status == A_PENDING && r.expiresAt <= now;
            && (state == EXPIRED <==> r.status == A_EXPIRED || lapsed)
            && (state == DENIED <==> r.status in {A_DENIED, A_CANCELLED})
            && (state == PENDING <==> r.status == A_PENDING && !lapsed)
            && (state == MISMATCH <==> r.status == A_APPROVED && r.contextHash != currentContextHash)
            && (state == APPROVED <==> r.status == A_APPROVED && r.contextHash == currentContextHash))
  {
  }
}
