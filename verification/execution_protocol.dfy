/**
 * The execution protocol: final revalidation mints execution requests backed by
 * reservations, and the answers of an untrusted executor drive those reservations. Each
 * service call is one step on the world; Services carries the steps out on a database.
 */
module ExecutionProtocol {
  import opened Wrappers
  import L = Ledger
  import I = Idempotency
  import D = DecisionEngine
  import G = TransactionGate
  import R = PolicyRules
  import E = PolicyEngine

  type Id = nat

  datatype RequestStatus = AUTHORIZED | SUBMITTED | CONFIRMED | FAILED | UNKNOWN

  datatype Request = Request(
    companyId: string, agentId: string, decisionId: string, transactionId: string, policyVersionId: Option<string>,
    contextHash: string, idempotencyKey: string, network: string, status: RequestStatus, authorizedAt: int)

  datatype ResultRow = ResultRow(requestId: Id, status: RequestStatus, chain: string, transactionHash: Option<string>)

  datatype Receipt = Receipt(recipient: string, asset: string, amount: int, network: string)

  datatype Discrepancy = RECIPIENT | ASSET | AMOUNT | NETWORK | EXECUTOR_UNVERIFIED

  datatype Verification = Verification(requestId: Id, verified: bool, expected: Receipt, actual: Receipt, discrepancies: seq<Discrepancy>)

  datatype World = World(
    ledger: L.State, registrations: I.Table, requests: map<Id, Request>, nextRequest: Id,
    results: seq<ResultRow>, verifications: seq<Verification>)

  const EMPTY := World(L.EMPTY, map[], map[], 0, [], [])

  // ------------------------------------------------------------ what a call is given

  datatype RevalidateInput = RevalidateInput(
    companyId: string, agentId: string, decisionId: string,
    intentId: string, intentIsValid: bool, intentValidUntil: Option<int>,
    proposal: G.Proposal, assessmentId: string, assessmentCreatedAt: Option<int>, advice: D.Advice,
    transactionId: string, analysis: G.Analysis, networks: G.Networks,
    simulation: G.Simulation, simulatedPayloadHash: string, simulationRequired: bool,
    approvalId: Option<string>, decisionContextHash: string,
    scopeKey: string, asset: string, amount: nat, assessmentMaxAgeMs: Option<int>, now: int)

  datatype Agent = Agent(active: bool, activePolicyId: Option<string>)

  datatype ActiveVersion = ActiveVersion(id: string, version: nat, rules: seq<R.Rule>)

  datatype ActiveCapability = ActiveCapability(expiresAt: Option<int>)

  /** The authoritative rows the call reads when it runs. */
  datatype Authority = Authority(
    agent: Option<Agent>, hasConstitution: bool, capability: Option<ActiveCapability>,
    version: Option<ActiveVersion>, approval: Option<D.ApprovalRequest>)

  /** What registration hashes. */
  datatype Body = Body(decisionId: string, transactionId: string, amount: nat, recipient: string, network: string)

  /** The digests of the code and the order of rule ids. */
  datatype Env = Env(
    payload: G.Payload -> string, context: D.HashContext -> string, body: Body -> string,
    evaluation: E.PreImage -> string, idOrder: E.IdOrder)

  // --------------------------------------------------------------- the fresh decision

  function PayloadHash(env: Env, input: RevalidateInput): string {
    env.payload(G.PayloadOf(input.transactionId, input.networks.actual, input.analysis))
  }

  function PolicyContext(input: RevalidateInput, capability: Option<ActiveCapability>): R.Context {
    var p := input.proposal;
    var amount := if p.amount.Some? then Some(p.amount.value.amount.units) else None;
    var currency := if p.amount.Some? then Some(p.amount.value.currency) else None;
    R.Context(
      R.Transaction(p.actionType, amount, currency, p.network, None, G.ProposalRecipient(p)),
      map[], map[], [], None, [], if capability.Some? then capability.value.expiresAt else None, input.now)
  }

  datatype PolicyFacts = PolicyFacts(policyId: string, version: nat, versionId: Option<string>, evaluationHash: string, status: E.Status)

  function Policy(env: Env, input: RevalidateInput, auth: Authority): PolicyFacts {
    var policyId := if auth.agent.Some? then auth.agent.value.activePolicyId else None;
    var name := if policyId.Some? then policyId.value else "none";
    if !R.Given(policyId) || auth.version.None? then PolicyFacts(name, 0, None, "none", E.FAIL)
    else
      var v := auth.version.value;
      var capability := if auth.agent.Some? then auth.capability else None;
      var e := E.Evaluate(env.idOrder, name, v.version, v.rules, PolicyContext(input, capability));
      PolicyFacts(name, v.version, Some(v.id), env.evaluation(e.hashed), e.status)
  }

  function FreshContext(env: Env, input: RevalidateInput, auth: Authority): D.HashContext {
    var policy := Policy(env, input, auth);
    D.HashContext(
      input.intentId, input.proposal.proposalId, policy.policyId, policy.version, policy.evaluationHash, input.assessmentId,
      Some(input.transactionId), Some(PayloadHash(env, input)), Some(input.simulation.transactionId),
      if R.Given(input.approvalId) then Some(input.decisionContextHash) else None)
  }

  predicate Stale(env: Env, input: RevalidateInput, auth: Authority) {
    || (input.assessmentMaxAgeMs.Some?
        && (input.assessmentCreatedAt.None? || input.now - input.assessmentCreatedAt.value > input.assessmentMaxAgeMs.value))
    || (input.decisionContextHash != "" && input.decisionContextHash != env.context(FreshContext(env, input, auth)))
  }

  ghost function DecisionInput(env: Env, input: RevalidateInput, auth: Authority): D.Input {
    D.Input(
      false,
      auth.agent.Some? && auth.agent.value.active,
      input.intentIsValid && (input.intentValidUntil.None? || input.intentValidUntil.value > input.now),
      auth.agent.Some? && auth.capability.Some?,
      auth.hasConstitution,
      Policy(env, input, auth).status,
      Some(G.Matches(input.proposal, input.analysis, input.networks, input.proposal.actionType == "PAY")),
      input.simulationRequired, Some(G.ClassifySimulation(input.simulation)),
      Some(G.ValidateSimulationBinding(input.simulation, input.transactionId, input.simulatedPayloadHash, PayloadHash(env, input))),
      Stale(env, input, auth),
      if R.Given(input.approvalId) then Some(D.ResolveApprovalState(auth.approval, input.decisionContextHash, input.now)) else None,
      Some(input.advice))
  }

  // --------------------------------------------------------------------- revalidate

  datatype Outcome = Outcome(result: D.Verdict, determinant: D.Determinant, request: Option<Id>, reservation: Option<L.Id>)

  function RegistrationKey(companyId: string, key: string): I.Key {
    I.Key(companyId, "EXECUTION", key)
  }

  function BodyOf(input: RevalidateInput): Body {
    Body(input.decisionId, input.transactionId, input.amount, input.analysis.recipient, input.networks.actual)
  }

  function AccountOf(input: RevalidateInput): L.AccountKey {
    L.AccountKey(input.companyId, L.AGENT, input.scopeKey, input.asset, Some(input.networks.actual))
  }

  function ReserveInputOf(input: RevalidateInput): L.ReserveInput {
    L.ReserveInput(AccountOf(input), Some(input.agentId), input.amount, None)
  }

  predicate IsRequestFor(q: Request, companyId: string, key: string) {
    q.companyId == companyId && q.idempotencyKey == key
  }

  ghost function FindRequest(w: World, companyId: string, key: string): (found: Option<Id>)
    ensures found.Some? ==> found.value in w.requests && IsRequestFor(w.requests[found.value], companyId, key)
    ensures found.None? ==> forall q :: q in w.requests ==> !IsRequestFor(w.requests[q], companyId, key)
  {
    if q :| q in w.requests && IsRequestFor(w.requests[q], companyId, key) then Some(q) else None
  }

  function NewRequest(env: Env, input: RevalidateInput, auth: Authority): Request {
    Request(input.companyId, input.agentId, input.decisionId, input.transactionId, Policy(env, input, auth).versionId,
            env.context(FreshContext(env, input, auth)), PayloadHash(env, input), input.networks.actual, AUTHORIZED, input.now)
  }

  /** Create the request and bind the reservation to it. */
  function Mint(w: World, request: Request, reservation: L.Id): World
    requires reservation in w.ledger.reservations
  {
    var r := w.ledger.reservations[reservation];
    w.(requests := w.requests[w.nextRequest := request], nextRequest := w.nextRequest + 1,
       ledger := w.ledger.(reservations := w.ledger.reservations[reservation := r.(executionRequestId := Some(w.nextRequest))]))
  }

  /** What an allowed call is about to do. */
  datatype Plan = Plan(companyId: string, key: string, bodyHash: string, reserve: L.ReserveInput, request: Request)

  function PlanOf(env: Env, input: RevalidateInput, auth: Authority): Plan {
    Plan(input.companyId, PayloadHash(env, input), env.body(BodyOf(input)), ReserveInputOf(input), NewRequest(env, input, auth))
  }

  /** Mint when the reservation was made; over budget is a DENY. The account a refused reservation created stays. */
  function Finish(w: World, ledger: L.State, reserved: Result<L.Id>, plan: Plan): (World, Result<Outcome>) {
    var w1 := w.(ledger := ledger);
    match reserved
    case Err(POLICY_VIOLATION) => (w1, Ok(Outcome(D.DENY, D.BUDGET_EXCEEDED, None, None)))
    case Err(error) => (w1, Err(error))
    case Ok(id) =>
      if id in ledger.reservations then (Mint(w1, plan.request, id), Ok(Outcome(D.ALLOW, D.ALLOWED, Some(w.nextRequest), Some(id))))
      else (w1, Err(INTERNAL_ERROR))
  }

  ghost function ReserveAndMint(w: World, plan: Plan): (World, Result<Outcome>) {
    var (ledger, reserved) := L.Reserve(w.ledger, plan.reserve);
    Finish(w, ledger, reserved, plan)
  }

  /** Register, look for an existing request, otherwise reserve and mint. */
  ghost function Proceed(w: World, decision: D.Decision, plan: Plan): (World, Result<Outcome>) {
    if decision.result != D.ALLOW then (w, Ok(Outcome(decision.result, decision.determinant, None, None)))
    else
      var (table, registration) := I.Register(w.registrations, RegistrationKey(plan.companyId, plan.key), plan.bodyHash);
      var w1 := w.(registrations := table);
      if registration.Err? then (w1, Err(registration.error))
      else
        match FindRequest(w1, plan.companyId, plan.key)
        case Some(q) => (w1, Ok(Outcome(D.ALLOW, D.ALLOW_IDEMPOTENT, Some(q), None)))
        case None => ReserveAndMint(w1, plan)
  }

  ghost function FreshDecision(env: Env, input: RevalidateInput, auth: Authority): D.Decision {
    D.Decide(DecisionInput(env, input, auth))
  }

  ghost function Revalidate(env: Env, w: World, input: RevalidateInput, auth: Authority): (World, Result<Outcome>) {
    Proceed(w, FreshDecision(env, input, auth), PlanOf(env, input, auth))
  }

  // ---------------------------------------------------------------- executor answers

  datatype ResultInput = ResultInput(
    executionId: Id, status: RequestStatus, chain: string, transactionHash: Option<string>, authenticated: bool)

  predicate Known(w: World, companyId: string, q: Id) {
    q in w.requests && w.requests[q].companyId == companyId
  }

  predicate IsBound(r: L.Reservation, companyId: string, q: Id, statuses: set<L.Status>) {
    r.companyId == companyId && r.executionRequestId == Some(q) && r.status in statuses
  }

  /** The reservation a lookup by request and status finds. */
  ghost function FindBound(w: World, companyId: string, q: Id, statuses: set<L.Status>): (found: Option<L.Id>)
    ensures found.Some? ==> found.value in w.ledger.reservations && IsBound(w.ledger.reservations[found.value], companyId, q, statuses)
    ensures found.None? ==> forall r :: r in w.ledger.reservations ==> !IsBound(w.ledger.reservations[r], companyId, q, statuses)
  {
    if r :| r in w.ledger.reservations && IsBound(w.ledger.reservations[r], companyId, q, statuses) then Some(r) else None
  }

  /** Settle the reservation bound to a request, if there is one in one of the statuses. */
  ghost function SettleBound(w: World, op: L.Settlement, companyId: string, q: Id, statuses: set<L.Status>): World {
    match FindBound(w, companyId, q, statuses)
    case None => w
    case Some(r) => w.(ledger := L.ApplySettlement(w.ledger, op, companyId, r).0)
  }

  function SetStatus(w: World, q: Id, status: RequestStatus): World
    requires q in w.requests
  {
    w.(requests := w.requests[q := w.requests[q].(status := status)])
  }

  /** A result row is added, and the request mirrors it. */
  function Recorded(w: World, row: ResultRow): World
    requires row.requestId in w.requests
  {
    SetStatus(w.(results := w.results + [row]), row.requestId, row.status)
  }

  ghost function Ingest(w: World, companyId: string, input: ResultInput): (World, Result<ResultRow>) {
    var q := input.executionId;
    if !input.authenticated then (w, Err(AUTHENTICATION_ERROR))
    else if !Known(w, companyId, q) then (w, Err(EXECUTION_FAILED))
    else if input.chain != w.requests[q].network then (w, Err(TRANSACTION_MISMATCH))
    else
      var row := ResultRow(q, input.status, input.chain, input.transactionHash);
      var w1 := Recorded(w, row);
      if input.status == UNKNOWN then (SettleBound(w1, L.DoMarkUnknown, companyId, q, {L.RESERVED}), Ok(row))
      else if input.status == FAILED then (SettleBound(w1, L.DoRelease, companyId, q, {L.RESERVED}), Ok(row))
      else (w1, Ok(row))
  }

  datatype Reconciled = R_CONFIRMED | R_FAILED | STILL_UNKNOWN

  /** `answer` is what the execution client says the outcome was. */
  ghost function Reconcile(w: World, companyId: string, q: Id, answer: RequestStatus): (World, Result<Reconciled>) {
    if !Known(w, companyId, q) then (w, Err(EXECUTION_FAILED))
    else if answer == CONFIRMED then (SetStatus(w, q, CONFIRMED), Ok(R_CONFIRMED))
    else if answer == FAILED then
      (SettleBound(SetStatus(w, q, FAILED), L.DoReconcileRelease, companyId, q, {L.RESERVED, L.UNKNOWN}), Ok(R_FAILED))
    else (w, Ok(STILL_UNKNOWN))
  }

  function Discrepancies(authorized: Receipt, actual: Receipt, clientVerified: bool): seq<Discrepancy> {
    (if authorized.recipient != actual.recipient then [RECIPIENT] else [])
    + (if authorized.asset != actual.asset then [ASSET] else [])
    + (if authorized.amount != actual.amount then [AMOUNT] else [])
    + (if authorized.network != actual.network then [NETWORK] else [])
    + (if !clientVerified then [EXECUTOR_UNVERIFIED] else [])
  }

  function VerificationOf(q: Id, authorized: Receipt, actual: Receipt, clientVerified: bool): Verification {
    var ds := Discrepancies(authorized, actual, clientVerified);
    Verification(q, ds == [], authorized, actual, ds)
  }

  /** `actual` and `clientVerified` are what the execution client says the receipt holds. */
  ghost function Verify(w: World, companyId: string, q: Id, authorized: Receipt, actual: Receipt, clientVerified: bool)
    : (World, Result<(Verification, bool)>)
  {
    if !Known(w, companyId, q) then (w, Err(EXECUTION_FAILED))
    else
      var v := VerificationOf(q, authorized, actual, clientVerified);
      var w1 := w.(verifications := w.verifications + [v]);
      if v.verified then
        (SettleBound(w1, L.DoCommit, companyId, q, {L.RESERVED}), Ok((v, FindBound(w1, companyId, q, {L.RESERVED}).Some?)))
      else (w1, Ok((v, false)))
  }

  datatype Op =
    | OpEnsure(key: L.AccountKey, agentId: Option<string>, limit: Option<nat>)
    | OpRevalidate(input: RevalidateInput, auth: Authority)
    | OpIngest(companyId: string, result: ResultInput)
    | OpReconcile(companyId: string, q: Id, answer: RequestStatus)
    | OpVerify(companyId: string, q: Id, authorized: Receipt, actual: Receipt, clientVerified: bool)

  ghost function Step(env: Env, w: World, op: Op): World {
    match op
    case OpEnsure(key, agentId, limit) => w.(ledger := L.EnsureAccount(w.ledger, key, agentId, limit).0)
    case OpRevalidate(input, auth) => Revalidate(env, w, input, auth).0
    case OpIngest(companyId, result) => Ingest(w, companyId, result).0
    case OpReconcile(companyId, q, answer) => Reconcile(w, companyId, q, answer).0
    case OpVerify(companyId, q, authorized, actual, clientVerified) => Verify(w, companyId, q, authorized, actual, clientVerified).0
  }

  ghost function Run(env: Env, w: World, ops: seq<Op>): World
    decreases |ops|
  {
    if ops == [] then w else Run(env, Step(env, w, ops[0]), ops[1..])
  }

  // ------------------------------------------------------------------------ invariant

  type Reservations = map<L.Id, L.Reservation>

  type Requests = map<Id, Request>

  /** At most one request per company and payload hash. */
  ghost predicate OneRequestPerKey(requests: Requests) {
    forall p, q :: p in requests && q in requests && SameKey(requests[p], requests[q]) ==> p == q
  }

  predicate SameKey(p: Request, q: Request) {
    p.companyId == q.companyId && p.idempotencyKey == q.idempotencyKey
  }

  ghost predicate Registered(requests: Requests, table: I.Table) {
    forall q :: q in requests ==> RegistrationKey(requests[q].companyId, requests[q].idempotencyKey) in table
  }

  ghost predicate Backs(rs: Reservations, r: L.Id, q: Id) {
    r in rs && rs[r].executionRequestId == Some(q)
  }

  ghost predicate IsBacked(rs: Reservations, q: Id) {
    exists r :: Backs(rs, r, q)
  }

  predicate BelongsTo(r: L.Reservation, requests: Requests) {
    && r.executionRequestId.Some? && r.executionRequestId.value in requests
    && requests[r.executionRequestId.value].companyId == r.companyId
  }

  /** Each request is backed by a reservation, and each reservation backs one request of its company, alone. */
  ghost predicate Linked(rs: Reservations, requests: Requests) {
    && (forall q :: q in requests ==> IsBacked(rs, q))
    && (forall r :: r in rs ==> BelongsTo(rs[r], requests))
    && (forall r, s, q :: Backs(rs, r, q) && Backs(rs, s, q) ==> r == s)
  }

  predicate Proves(v: Verification, q: Id) {
    v.requestId == q && v.verified && v.discrepancies == [] && v.expected == v.actual
  }

  ghost predicate HasProof(vs: seq<Verification>, q: Option<Id>) {
    q.Some? && exists v :: v in vs && Proves(v, q.value)
  }

  /** Money counts as spent only for requests with a verified record. */
  ghost predicate SpendingIsVerified(rs: Reservations, vs: seq<Verification>) {
    forall r :: r in rs && rs[r].status == L.COMMITTED ==> HasProof(vs, rs[r].executionRequestId)
  }

  /** The tables next to the ledger. */
  ghost predicate TablesInv(w: World) {
    && (forall q :: q in w.requests ==> q < w.nextRequest)
    && OneRequestPerKey(w.requests) && Registered(w.requests, w.registrations)
    && Linked(w.ledger.reservations, w.requests)
    && SpendingIsVerified(w.ledger.reservations, w.verifications)
  }

  ghost predicate Inv(w: World) {
    L.Inv(w.ledger) && TablesInv(w)
  }

  // ------------------------------------------------------- steps keep the invariant

  /** The same reservations, with other statuses. */
  ghost predicate OnlyStatusesDiffer(rs: Reservations, rs': Reservations) {
    rs'.Keys == rs.Keys && forall r :: r in rs ==> rs'[r] == rs[r].(status := rs'[r].status)
  }

  lemma SettlementChangesOneStatus(s: L.State, op: L.Settlement, companyId: string, id: L.Id)
    requires L.Formed(s)
    ensures var s' := L.ApplySettlement(s, op, companyId, id).0;
      && OnlyStatusesDiffer(s.reservations, s'.reservations)
      && (forall r :: r in s.reservations && r != id ==> s'.reservations[r] == s.reservations[r])
      && (forall r :: r in s.reservations && s'.reservations[r].status == L.COMMITTED ==>
            s.reservations[r].status == L.COMMITTED || (op == L.DoCommit && r == id))
  {
  }

  lemma StatusesKeepLinks(rs: Reservations, rs': Reservations, requests: Requests)
    requires Linked(rs, requests) && OnlyStatusesDiffer(rs, rs')
    ensures Linked(rs', requests)
  {
    forall r, q ensures Backs(rs', r, q) <==> Backs(rs, r, q) {
    }
    forall q | q in requests ensures IsBacked(rs', q) {
      assert IsBacked(rs, q);
      var r :| Backs(rs, r, q);
      assert Backs(rs', r, q);
    }
  }

  lemma SpendingStaysVerified(rs: Reservations, rs': Reservations, vs: seq<Verification>)
    requires SpendingIsVerified(rs, vs) && OnlyStatusesDiffer(rs, rs')
    requires forall r :: r in rs && rs'[r].status == L.COMMITTED ==> rs[r].status == L.COMMITTED || HasProof(vs, rs[r].executionRequestId)
    ensures SpendingIsVerified(rs', vs)
  {
    forall r | r in rs' && rs'[r].status == L.COMMITTED ensures HasProof(vs, rs'[r].executionRequestId) {
      assert rs'[r].executionRequestId == rs[r].executionRequestId;
    }
  }

  lemma SettledLedger(s: L.State, op: L.Settlement, companyId: string, id: L.Id)
    requires L.Inv(s)
    ensures L.Inv(L.ApplySettlement(s, op, companyId, id).0)
  {
    L.StepKeepsInv(s, L.OpSettle(op, companyId, id));
  }

  lemma StatusesKeepTables(w: World, ledger: L.State)
    requires TablesInv(w) && OnlyStatusesDiffer(w.ledger.reservations, ledger.reservations)
    requires SpendingIsVerified(ledger.reservations, w.verifications)
    ensures TablesInv(w.(ledger := ledger))
  {
    StatusesKeepLinks(w.ledger.reservations, ledger.reservations, w.requests);
  }

  lemma SettleKeepsInv(w: World, op: L.Settlement, companyId: string, id: L.Id)
    requires Inv(w)
    requires op == L.DoCommit && id in w.ledger.reservations ==> HasProof(w.verifications, w.ledger.reservations[id].executionRequestId)
    ensures Inv(w.(ledger := L.ApplySettlement(w.ledger, op, companyId, id).0))
  {
    var ledger := L.ApplySettlement(w.ledger, op, companyId, id).0;
    SettledLedger(w.ledger, op, companyId, id);
    SettlementChangesOneStatus(w.ledger, op, companyId, id);
    SpendingStaysVerified(w.ledger.reservations, ledger.reservations, w.verifications);
    StatusesKeepTables(w, ledger);
  }

  lemma SettleBoundKeepsInv(w: World, op: L.Settlement, companyId: string, q: Id, statuses: set<L.Status>)
    requires Inv(w) && (op == L.DoCommit ==> HasProof(w.verifications, Some(q)))
    ensures Inv(SettleBound(w, op, companyId, q, statuses))
  {
    var found := FindBound(w, companyId, q, statuses);
    if found.Some? {
      SettleKeepsInv(w, op, companyId, found.value);
    }
  }

  /** The same requests, with other statuses. */
  ghost predicate SameRequests(requests: Requests, requests': Requests) {
    requests'.Keys == requests.Keys && forall q :: q in requests ==> requests'[q] == requests[q].(status := requests'[q].status)
  }

  lemma SameRequestsKeepKeys(requests: Requests, requests': Requests, table: I.Table)
    requires SameRequests(requests, requests') && OneRequestPerKey(requests) && Registered(requests, table)
    ensures OneRequestPerKey(requests') && Registered(requests', table)
  {
    forall a, b | a in requests' && b in requests' && SameKey(requests'[a], requests'[b]) ensures a == b {
      assert SameKey(requests[a], requests[b]);
    }
  }

  lemma SameRequestsKeepLinks(rs: Reservations, requests: Requests, requests': Requests)
    requires SameRequests(requests, requests') && Linked(rs, requests)
    ensures Linked(rs, requests')
  {
    forall r | r in rs ensures BelongsTo(rs[r], requests') {
      assert BelongsTo(rs[r], requests);
    }
  }

  lemma SetStatusKeepsTables(w: World, q: Id, status: RequestStatus)
    requires TablesInv(w) && q in w.requests
    ensures TablesInv(SetStatus(w, q, status))
  {
    var requests' := SetStatus(w, q, status).requests;
    SameRequestsKeepKeys(w.requests, requests', w.registrations);
    SameRequestsKeepLinks(w.ledger.reservations, w.requests, requests');
  }

  /** The reservation made is new, unbound and for the given amount in the given bucket; a refusal changes nothing. */
  predicate ReservesOne(s: L.State, input: L.ReserveInput, s': L.State, r: Result<L.Id>) {
    match r
    case Err(error) => s' == s && error == POLICY_VIOLATION
    case Ok(id) =>
      && id !in s.reservations && id in s'.reservations && s'.reservations == s.reservations[id := s'.reservations[id]]
      && IsReservedFor(s', s'.reservations[id], input)
  }

  predicate IsReservedFor(s: L.State, r: L.Reservation, input: L.ReserveInput) {
    && r.companyId == input.key.companyId && r.status == L.RESERVED && r.executionRequestId == input.executionRequestId
    && r.amount == input.amount && r.accountId in s.accounts && s.accounts[r.accountId].key == input.key
  }

  lemma ReserveMakesOne(s: L.State, input: L.ReserveInput)
    requires L.Inv(s)
    ensures var (s', r) := L.Reserve(s, input); L.Inv(s') && ReservesOne(s, input, s', r) && (r.Ok? <==> Fits(s, input))
  {
    L.StepKeepsInv(s, L.OpReserve(input));
    L.ReserveAcceptedIffItFits(s, input);
    L.EnsureKeepsInv(s, input.key, input.agentId, None);
  }

  /** Binding a reservation moves no money. */
  lemma BindKeepsLedger(s: L.State, id: L.Id, q: Id)
    requires L.Inv(s) && id in s.reservations
    ensures L.Inv(s.(reservations := s.reservations[id := s.reservations[id].(executionRequestId := Some(q))]))
  {
    var t := s.(reservations := s.reservations[id := s.reservations[id].(executionRequestId := Some(q))]);
    forall a | a in t.accounts ensures L.Balanced(t, a) && L.WithinLimit(t.accounts[a]) {
      assert L.Balanced(s, a);
      L.SumAtPut(s.reservations, id, t.reservations[id], a, {L.RESERVED, L.UNKNOWN});
      L.SumAtPut(s.reservations, id, t.reservations[id], a, {L.COMMITTED});
    }
  }

  /** A new request with a new reservation keeps every request backed by its own reservation. */
  lemma NewPairKeepsLinks(rs: Reservations, requests: Requests, id: L.Id, r: L.Reservation, q: Id, request: Request)
    requires Linked(rs, requests) && id !in rs && q !in requests
    requires r.executionRequestId == Some(q) && r.companyId == request.companyId
    ensures Linked(rs[id := r], requests[q := request])
  {
    var rs', requests' := rs[id := r], requests[q := request];
    forall s | s in rs ensures !Backs(rs, s, q) {
      assert BelongsTo(rs[s], requests);
    }
    forall s, p ensures Backs(rs', s, p) <==> Backs(rs, s, p) || (s == id && p == q) {
    }
    assert Backs(rs', id, q);
    forall p | p in requests' ensures IsBacked(rs', p) {
      if p != q {
        assert IsBacked(rs, p);
        var s :| Backs(rs, s, p);
        assert Backs(rs', s, p);
      }
    }
    forall s | s in rs' ensures BelongsTo(rs'[s], requests') {
      if s != id {
        assert BelongsTo(rs[s], requests);
      }
    }
  }

  lemma NewKeyStaysUnique(requests: Requests, q: Id, request: Request)
    requires OneRequestPerKey(requests) && q !in requests
    requires forall p :: p in requests ==> !IsRequestFor(requests[p], request.companyId, request.idempotencyKey)
    ensures OneRequestPerKey(requests[q := request])
  {
  }

  /** The plan's request is for the plan's company and key, and so is its bucket. */
  predicate Coherent(plan: Plan) {
    && plan.request.companyId == plan.companyId && plan.request.idempotencyKey == plan.key
    && plan.reserve.key.companyId == plan.companyId && plan.reserve.executionRequestId.None?
  }

  lemma FinishKeepsTables(w: World, ledger: L.State, reserved: Result<L.Id>, plan: Plan)
    requires TablesInv(w) && Coherent(plan) && RegistrationKey(plan.companyId, plan.key) in w.registrations
    requires FindRequest(w, plan.companyId, plan.key).None?
    requires ReservesOne(w.ledger, plan.reserve, ledger, reserved)
    ensures TablesInv(Finish(w, ledger, reserved, plan).0)
  {
    if reserved.Ok? {
      var id := reserved.value;
      var r := ledger.reservations[id].(executionRequestId := Some(w.nextRequest));
      assert ledger.reservations[id := r] == w.ledger.reservations[id := r];
      MintedRows(w.ledger.reservations, w.requests, id, r, w.nextRequest, plan.request, w.registrations, w.verifications);
    }
  }

  lemma FinishKeepsLedger(w: World, ledger: L.State, reserved: Result<L.Id>, plan: Plan)
    requires L.Inv(ledger)
    ensures L.Inv(Finish(w, ledger, reserved, plan).0.ledger)
  {
    if reserved.Ok? && reserved.value in ledger.reservations {
      BindKeepsLedger(ledger, reserved.value, w.nextRequest);
    }
  }

  lemma MintKeepsInv(w: World, plan: Plan)
    requires Inv(w) && Coherent(plan) && RegistrationKey(plan.companyId, plan.key) in w.registrations
    requires FindRequest(w, plan.companyId, plan.key).None?
    ensures Inv(ReserveAndMint(w, plan).0)
  {
    var (ledger, reserved) := L.Reserve(w.ledger, plan.reserve);
    ReserveMakesOne(w.ledger, plan.reserve);
    FinishKeepsLedger(w, ledger, reserved, plan);
    FinishKeepsTables(w, ledger, reserved, plan);
  }

  lemma UncommittedNeedsNoProof(rs: Reservations, id: L.Id, r: L.Reservation, vs: seq<Verification>)
    requires SpendingIsVerified(rs, vs) && r.status != L.COMMITTED
    ensures SpendingIsVerified(rs[id := r], vs)
  {
  }

  lemma RegisteredGrows(requests: Requests, q: Id, request: Request, table: I.Table)
    requires Registered(requests, table) && RegistrationKey(request.companyId, request.idempotencyKey) in table
    ensures Registered(requests[q := request], table)
  {
  }

  lemma MintedRows(rs: Reservations, requests: Requests, id: L.Id, r: L.Reservation, q: Id, request: Request,
                   table: I.Table, vs: seq<Verification>)
    requires Linked(rs, requests) && OneRequestPerKey(requests) && Registered(requests, table) && SpendingIsVerified(rs, vs)
    requires id !in rs && q !in requests
    requires r.executionRequestId == Some(q) && r.companyId == request.companyId && r.status != L.COMMITTED
    requires forall p :: p in requests ==> !IsRequestFor(requests[p], request.companyId, request.idempotencyKey)
    requires RegistrationKey(request.companyId, request.idempotencyKey) in table
    ensures Linked(rs[id := r], requests[q := request]) && OneRequestPerKey(requests[q := request])
    ensures Registered(requests[q := request], table) && SpendingIsVerified(rs[id := r], vs)
  {
    NewPairKeepsLinks(rs, requests, id, r, q, request);
    NewKeyStaysUnique(requests, q, request);
    RegisteredGrows(requests, q, request, table);
    UncommittedNeedsNoProof(rs, id, r, vs);
  }

  lemma ProceedKeepsInv(w: World, decision: D.Decision, plan: Plan)
    requires Inv(w) && Coherent(plan)
    ensures Inv(Proceed(w, decision, plan).0)
  {
    var w1 := w.(registrations := I.Register(w.registrations, RegistrationKey(plan.companyId, plan.key), plan.bodyHash).0);
    if FindRequest(w1, plan.companyId, plan.key).None? {
      MintKeepsInv(w1, plan);
    }
  }

  lemma PlanIsCoherent(env: Env, input: RevalidateInput, auth: Authority)
    ensures Coherent(PlanOf(env, input, auth))
  {
  }

  lemma RevalidateKeepsInv(env: Env, w: World, input: RevalidateInput, auth: Authority)
    requires Inv(w)
    ensures Inv(Revalidate(env, w, input, auth).0)
  {
    PlanIsCoherent(env, input, auth);
    ProceedKeepsInv(w, FreshDecision(env, input, auth), PlanOf(env, input, auth));
  }

  lemma RecordedKeepsTables(w: World, row: ResultRow)
    requires TablesInv(w) && row.requestId in w.requests
    ensures TablesInv(Recorded(w, row))
  {
    SetStatusKeepsTables(w.(results := w.results + [row]), row.requestId, row.status);
  }

  lemma IngestKeepsInv(w: World, companyId: string, input: ResultInput)
    requires Inv(w)
    ensures Inv(Ingest(w, companyId, input).0)
  {
    if Ingest(w, companyId, input).1.Ok? {
      var row := ResultRow(input.executionId, input.status, input.chain, input.transactionHash);
      RecordedKeepsTables(w, row);
      if input.status == UNKNOWN {
        SettleBoundKeepsInv(Recorded(w, row), L.DoMarkUnknown, companyId, input.executionId, {L.RESERVED});
      } else if input.status == FAILED {
        SettleBoundKeepsInv(Recorded(w, row), L.DoRelease, companyId, input.executionId, {L.RESERVED});
      }
    }
  }

  lemma ReconcileKeepsInv(w: World, companyId: string, q: Id, answer: RequestStatus)
    requires Inv(w)
    ensures Inv(Reconcile(w, companyId, q, answer).0)
  {
    if Known(w, companyId, q) && answer == CONFIRMED {
      SetStatusKeepsTables(w, q, CONFIRMED);
    } else if Known(w, companyId, q) && answer == FAILED {
      SetStatusKeepsTables(w, q, FAILED);
      SettleBoundKeepsInv(SetStatus(w, q, FAILED), L.DoReconcileRelease, companyId, q, {L.RESERVED, L.UNKNOWN});
    }
  }

  lemma MoreVerificationsKeepTables(w: World, v: Verification)
    requires TablesInv(w)
    ensures TablesInv(w.(verifications := w.verifications + [v]))
  {
    var vs := w.verifications + [v];
    var rs := w.ledger.reservations;
    forall r | r in rs && rs[r].status == L.COMMITTED ensures HasProof(vs, rs[r].executionRequestId) {
      assert HasProof(w.verifications, rs[r].executionRequestId);
      var u :| u in w.verifications && Proves(u, rs[r].executionRequestId.value);
      assert u in vs;
    }
  }

  lemma VerifyKeepsInv(w: World, companyId: string, q: Id, authorized: Receipt, actual: Receipt, clientVerified: bool)
    requires Inv(w)
    ensures Inv(Verify(w, companyId, q, authorized, actual, clientVerified).0)
  {
    if Known(w, companyId, q) {
      var v := VerificationOf(q, authorized, actual, clientVerified);
      var w1 := w.(verifications := w.verifications + [v]);
      MoreVerificationsKeepTables(w, v);
      if v.verified {
        assert v in w1.verifications && Proves(v, q);
        SettleBoundKeepsInv(w1, L.DoCommit, companyId, q, {L.RESERVED});
      }
    }
  }

  lemma StepKeepsInv(env: Env, w: World, op: Op)
    requires Inv(w)
    ensures Inv(Step(env, w, op))
  {
    match op
    case OpEnsure(key, agentId, limit) => L.EnsureKeepsInv(w.ledger, key, agentId, limit);
    case OpRevalidate(input, auth) => RevalidateKeepsInv(env, w, input, auth);
    case OpIngest(companyId, result) => IngestKeepsInv(w, companyId, result);
    case OpReconcile(companyId, q, answer) => ReconcileKeepsInv(w, companyId, q, answer);
    case OpVerify(companyId, q, authorized, actual, clientVerified) =>
      VerifyKeepsInv(w, companyId, q, authorized, actual, clientVerified);
  }

  lemma {:induction false} RunKeepsInv(env: Env, w: World, ops: seq<Op>)
    requires Inv(w)
    ensures Inv(Run(env, w, ops))
    decreases |ops|
  {
    if ops != [] {
      StepKeepsInv(env, w, ops[0]);
      RunKeepsInv(env, Step(env, w, ops[0]), ops[1..]);
    }
  }

  // --------------------------------------------------------------------- main results

  /**
   * Over any sequence of calls: one request per company and payload hash, and each request
   * has exactly one reservation bound to it, of its own company.
   */
  lemma {:induction false} RequestsAreUniqueAndBacked(env: Env, ops: seq<Op>)
    ensures var w := Run(env, EMPTY, ops);
      && (forall p, q :: p in w.requests && q in w.requests && w.requests[p].companyId == w.requests[q].companyId ==>
            w.requests[p].idempotencyKey == w.requests[q].idempotencyKey ==> p == q)
      && (forall q :: q in w.requests ==> exists r :: r in w.ledger.reservations && BoundOnly(w, r, q))
      && (forall r :: r in w.ledger.reservations ==> BelongsTo(w.ledger.reservations[r], w.requests))
  {
    RunKeepsInv(env, EMPTY, ops);
    var w := Run(env, EMPTY, ops);
    forall p, q | p in w.requests && q in w.requests && SameKey(w.requests[p], w.requests[q]) ensures p == q {
    }
    forall q | q in w.requests ensures exists r :: r in w.ledger.reservations && BoundOnly(w, r, q) {
      assert IsBacked(w.ledger.reservations, q);
      var r :| Backs(w.ledger.reservations, r, q);
      OnlyBacker(w, r, q);
    }
  }

  /** `r` is the reservation of request `q`, and no other is. */
  ghost predicate BoundOnly(w: World, r: L.Id, q: Id)
    requires r in w.ledger.reservations
  {
    && w.ledger.reservations[r].executionRequestId == Some(q)
    && forall s :: s in w.ledger.reservations && s != r ==> w.ledger.reservations[s].executionRequestId != Some(q)
  }

  lemma OnlyBacker(w: World, r: L.Id, q: Id)
    requires Linked(w.ledger.reservations, w.requests) && Backs(w.ledger.reservations, r, q)
    ensures BoundOnly(w, r, q)
  {
    forall s | s in w.ledger.reservations && s != r ensures w.ledger.reservations[s].executionRequestId != Some(q) {
      assert !Backs(w.ledger.reservations, s, q);
    }
  }

  /** Whatever the executor answers, money is spent only for a request with a verified, discrepancy-free record. */
  lemma {:induction false} CommittedOnlyWhenVerified(env: Env, ops: seq<Op>, r: L.Id)
    requires var w := Run(env, EMPTY, ops); r in w.ledger.reservations && w.ledger.reservations[r].status == L.COMMITTED
    ensures var w := Run(env, EMPTY, ops);
      exists v :: v in w.verifications && w.ledger.reservations[r].executionRequestId == Some(v.requestId)
        && v.verified && v.discrepancies == [] && v.expected == v.actual
  {
    RunKeepsInv(env, EMPTY, ops);
    var w := Run(env, EMPTY, ops);
    assert HasProof(w.verifications, w.ledger.reservations[r].executionRequestId);
    var v :| v in w.verifications && Proves(v, w.ledger.reservations[r].executionRequestId.value);
  }

  /** The totals of every account agree with its reservations, and limits hold, in every run of the protocol. */
  lemma {:induction false} BudgetHoldsInEveryRun(env: Env, ops: seq<Op>, a: L.Id)
    requires a in Run(env, EMPTY, ops).ledger.accounts
    ensures var s := Run(env, EMPTY, ops).ledger;
      && s.accounts[a].reserved == L.SumAt(s.reservations, a, {L.RESERVED, L.UNKNOWN})
      && s.accounts[a].committed == L.SumAt(s.reservations, a, {L.COMMITTED})
      && (s.accounts[a].limit.Some? ==> s.accounts[a].reserved + s.accounts[a].committed <= s.accounts[a].limit.value)
  {
    RunKeepsInv(env, EMPTY, ops);
    var s := Run(env, EMPTY, ops).ledger;
    assert L.Balanced(s, a) && L.WithinLimit(s.accounts[a]);
  }

  // ------------------------------------------- what each answer does to a reservation

  /** The result is genuine, for this request and for its network. */
  predicate Accepted(w: World, companyId: string, input: ResultInput, q: Id) {
    input.authenticated && input.executionId == q && Known(w, companyId, q) && input.chain == w.requests[q].network
  }

  /** The status of the reservation of `q` after a call, for every call there is. */
  function NextStatus(w: World, op: Op, q: Id, before: L.Status): L.Status {
    if op.OpIngest? && Accepted(w, op.companyId, op.result, q) && op.result.status == UNKNOWN && before == L.RESERVED then
      L.UNKNOWN
    else if op.OpIngest? && Accepted(w, op.companyId, op.result, q) && op.result.status == FAILED && before == L.RESERVED then
      L.RELEASED
    else if op.OpReconcile? && op.q == q && Known(w, op.companyId, q) && op.answer == FAILED && before in {L.RESERVED, L.UNKNOWN} then
      L.RELEASED
    else if op.OpVerify? && op.q == q && Known(w, op.companyId, q) && op.authorized == op.actual && op.clientVerified && before == L.RESERVED then
      L.COMMITTED
    else before
  }

  lemma NoDiscrepancies(authorized: Receipt, actual: Receipt, clientVerified: bool)
    ensures Discrepancies(authorized, actual, clientVerified) == [] <==> authorized == actual && clientVerified
  {
  }

  /** The lookup finds the reservation of `q` exactly when its status is one of those looked for. */
  lemma LookupFinds(w: World, companyId: string, r: L.Id, q: Id, statuses: set<L.Status>)
    requires Linked(w.ledger.reservations, w.requests) && Backs(w.ledger.reservations, r, q) && Known(w, companyId, q)
    ensures FindBound(w, companyId, q, statuses) == if w.ledger.reservations[r].status in statuses then Some(r) else None
  {
    assert BelongsTo(w.ledger.reservations[r], w.requests);
    var found := FindBound(w, companyId, q, statuses);
    if found.Some? {
      assert Backs(w.ledger.reservations, found.value, q);
    }
    if w.ledger.reservations[r].status in statuses {
      assert IsBound(w.ledger.reservations[r], companyId, q, statuses);
    }
  }

  function StatusAfter(op: L.Settlement): L.Status {
    match op
    case DoCommit => L.COMMITTED
    case DoRelease => L.RELEASED
    case DoReconcileRelease => L.RELEASED
    case DoMarkUnknown => L.UNKNOWN
  }

  lemma SettledStatus(s: L.State, op: L.Settlement, companyId: string, r: L.Id)
    requires L.Formed(s) && L.Visible(s, companyId, r)
    requires s.reservations[r].status == L.RESERVED || (op == L.DoReconcileRelease && s.reservations[r].status == L.UNKNOWN)
    ensures L.ApplySettlement(s, op, companyId, r).1 == Ok(r)
    ensures L.ApplySettlement(s, op, companyId, r).0.reservations == s.reservations[r := s.reservations[r].(status := StatusAfter(op))]
  {
  }

  /** Settling by request touches its own reservation only. */
  lemma SettleBoundEffect(w: World, op: L.Settlement, companyId: string, p: Id, r: L.Id, q: Id)
    requires L.Formed(w.ledger) && TablesInv(w) && Backs(w.ledger.reservations, r, q) && Known(w, companyId, p)
    ensures var statuses := if op == L.DoReconcileRelease then {L.RESERVED, L.UNKNOWN} else {L.RESERVED};
      var w' := SettleBound(w, op, companyId, p, statuses); var before := w.ledger.reservations[r];
      && w'.ledger.reservations.Keys == w.ledger.reservations.Keys
      && w'.ledger.reservations[r] == if p == q && before.status in statuses then before.(status := StatusAfter(op)) else before
  {
    var statuses := if op == L.DoReconcileRelease then {L.RESERVED, L.UNKNOWN} else {L.RESERVED};
    var found := FindBound(w, companyId, p, statuses);
    if found.Some? {
      assert L.Visible(w.ledger, companyId, found.value);
      SettledStatus(w.ledger, op, companyId, found.value);
    }
    if p == q {
      LookupFinds(w, companyId, r, q, statuses);
    }
  }

  /** From `rs` to `rs'` reservation `r`, which backs `q`, moves as the call says and keeps all else. */
  ghost predicate Moves(w: World, op: Op, rs': Reservations, r: L.Id, q: Id) {
    var rs := w.ledger.reservations;
    r in rs && r in rs' && rs'[r] == rs[r].(status := NextStatus(w, op, q, rs[r].status))
  }

  /** Every call moves the reservation of every request exactly as `NextStatus` says and changes nothing else of it. */
  lemma StepMovesReservation(env: Env, w: World, op: Op, r: L.Id, q: Id)
    requires Inv(w) && Backs(w.ledger.reservations, r, q)
    ensures Moves(w, op, Step(env, w, op).ledger.reservations, r, q)
  {
    if op.OpEnsure? || op.OpRevalidate? {
      RequestSideMoves(env, w, op, r, q);
    } else {
      ExecutorSideMoves(env, w, op, r, q);
    }
  }

  lemma RequestSideMoves(env: Env, w: World, op: Op, r: L.Id, q: Id)
    requires Inv(w) && Backs(w.ledger.reservations, r, q) && (op.OpEnsure? || op.OpRevalidate?)
    ensures Moves(w, op, Step(env, w, op).ledger.reservations, r, q)
  {
    match op
    case OpEnsure(key, agentId, limit) => EnsureKeepsReservations(w, key, agentId, limit, r, q);
    case OpRevalidate(input, auth) => RevalidateKeepsOld(env, w, input, auth, r, q);
  }

  lemma ExecutorSideMoves(env: Env, w: World, op: Op, r: L.Id, q: Id)
    requires L.Formed(w.ledger) && TablesInv(w) && Backs(w.ledger.reservations, r, q) && (op.OpIngest? || op.OpReconcile? || op.OpVerify?)
    ensures Moves(w, op, Step(env, w, op).ledger.reservations, r, q)
  {
    match op
    case OpIngest(companyId, result) => IngestMoves(w, companyId, result, r, q);
    case OpReconcile(companyId, p, answer) => ReconcileMoves(w, companyId, p, answer, r, q);
    case OpVerify(companyId, p, authorized, actual, clientVerified) =>
      VerifyMoves(w, companyId, p, authorized, actual, clientVerified, r, q);
  }

  lemma EnsureKeepsReservations(w: World, key: L.AccountKey, agentId: Option<string>, limit: Option<nat>, r: L.Id, q: Id)
    requires Backs(w.ledger.reservations, r, q)
    ensures Moves(w, OpEnsure(key, agentId, limit), L.EnsureAccount(w.ledger, key, agentId, limit).0.reservations, r, q)
  {
  }

  lemma RevalidateKeepsOld(env: Env, w: World, input: RevalidateInput, auth: Authority, r: L.Id, q: Id)
    requires Inv(w) && Backs(w.ledger.reservations, r, q)
    ensures Moves(w, OpRevalidate(input, auth), Revalidate(env, w, input, auth).0.ledger.reservations, r, q)
  {
    PlanIsCoherent(env, input, auth);
    ProceedKeepsOld(w, FreshDecision(env, input, auth), PlanOf(env, input, auth), r);
  }

  lemma ProceedKeepsOld(w: World, decision: D.Decision, plan: Plan, r: L.Id)
    requires L.Inv(w.ledger) && Coherent(plan) && r in w.ledger.reservations
    ensures var rs' := Proceed(w, decision, plan).0.ledger.reservations; r in rs' && rs'[r] == w.ledger.reservations[r]
  {
    ProceedExactly(w, decision, plan);
  }

  lemma IngestMoves(w: World, companyId: string, input: ResultInput, r: L.Id, q: Id)
    requires L.Formed(w.ledger) && TablesInv(w) && Backs(w.ledger.reservations, r, q)
    ensures Moves(w, OpIngest(companyId, input), Ingest(w, companyId, input).0.ledger.reservations, r, q)
  {
    if Ingest(w, companyId, input).1.Ok? {
      var row := ResultRow(input.executionId, input.status, input.chain, input.transactionHash);
      RecordedKeepsTables(w, row);
      if input.status == UNKNOWN {
        UnknownMoves(w, Recorded(w, row), companyId, input, r, q);
      } else if input.status == FAILED {
        FailedMoves(w, Recorded(w, row), companyId, input, r, q);
      }
    }
  }

  lemma UnknownMoves(w: World, w1: World, companyId: string, input: ResultInput, r: L.Id, q: Id)
    requires L.Formed(w.ledger) && TablesInv(w1) && w1.ledger == w.ledger && Backs(w.ledger.reservations, r, q)
    requires Accepted(w, companyId, input, input.executionId) && Known(w1, companyId, input.executionId) && input.status == UNKNOWN
    ensures Moves(w, OpIngest(companyId, input), SettleBound(w1, L.DoMarkUnknown, companyId, input.executionId, {L.RESERVED}).ledger.reservations, r, q)
  {
    SettleBoundEffect(w1, L.DoMarkUnknown, companyId, input.executionId, r, q);
  }

  lemma FailedMoves(w: World, w1: World, companyId: string, input: ResultInput, r: L.Id, q: Id)
    requires L.Formed(w.ledger) && TablesInv(w1) && w1.ledger == w.ledger && Backs(w.ledger.reservations, r, q)
    requires Accepted(w, companyId, input, input.executionId) && Known(w1, companyId, input.executionId) && input.status == FAILED
    ensures Moves(w, OpIngest(companyId, input), SettleBound(w1, L.DoRelease, companyId, input.executionId, {L.RESERVED}).ledger.reservations, r, q)
  {
    SettleBoundEffect(w1, L.DoRelease, companyId, input.executionId, r, q);
  }

  lemma ReconcileMoves(w: World, companyId: string, p: Id, answer: RequestStatus, r: L.Id, q: Id)
    requires L.Formed(w.ledger) && TablesInv(w) && Backs(w.ledger.reservations, r, q)
    ensures Moves(w, OpReconcile(companyId, p, answer), Reconcile(w, companyId, p, answer).0.ledger.reservations, r, q)
  {
    if Known(w, companyId, p) && answer == FAILED {
      SetStatusKeepsTables(w, p, FAILED);
      SettleBoundEffect(SetStatus(w, p, FAILED), L.DoReconcileRelease, companyId, p, r, q);
    }
  }

  lemma VerifyMoves(w: World, companyId: string, p: Id, authorized: Receipt, actual: Receipt, clientVerified: bool, r: L.Id, q: Id)
    requires L.Formed(w.ledger) && TablesInv(w) && Backs(w.ledger.reservations, r, q)
    ensures Moves(w, OpVerify(companyId, p, authorized, actual, clientVerified),
                  Verify(w, companyId, p, authorized, actual, clientVerified).0.ledger.reservations, r, q)
  {
    NoDiscrepancies(authorized, actual, clientVerified);
    if Known(w, companyId, p) {
      var v := VerificationOf(p, authorized, actual, clientVerified);
      MoreVerificationsKeepTables(w, v);
      SettleBoundEffect(w.(verifications := w.verifications + [v]), L.DoCommit, companyId, p, r, q);
    }
  }

  /** The call in which an UNKNOWN hold of request `q` may be freed. */
  predicate ReconciledAsFailed(op: Op, q: Id) {
    op.OpReconcile? && op.q == q && op.answer == FAILED
  }

  /** One move follows the lifecycle, and leaves an UNKNOWN hold alone unless it is the reconcile that frees it. */
  lemma MoveFollowsLifecycle(w: World, op: Op, rs': Reservations, r: L.Id, q: Id)
    requires Moves(w, op, rs', r, q) && Backs(w.ledger.reservations, r, q)
    ensures Backs(rs', r, q) && L.Follows(w.ledger.reservations[r], rs'[r])
    ensures w.ledger.reservations[r].status == L.UNKNOWN && !ReconciledAsFailed(op, q) ==> rs'[r] == w.ledger.reservations[r]
  {
  }

  lemma FollowsTwice(a: L.Reservation, b: L.Reservation, c: L.Reservation)
    requires L.Follows(a, b) && L.Follows(b, c)
    ensures L.Follows(a, c)
  {
  }

  /** Over every run a reservation goes RESERVED to COMMITTED, RELEASED or UNKNOWN, and UNKNOWN to RELEASED, only. */
  lemma {:induction false} ReservationsFollowLifecycle(env: Env, w: World, ops: seq<Op>, r: L.Id, q: Id)
    requires Inv(w) && Backs(w.ledger.reservations, r, q)
    ensures Backs(Run(env, w, ops).ledger.reservations, r, q)
    ensures L.Follows(w.ledger.reservations[r], Run(env, w, ops).ledger.reservations[r])
    decreases |ops|
  {
    if ops != [] {
      StepKeepsInv(env, w, ops[0]);
      StepMovesReservation(env, w, ops[0], r, q);
      MoveFollowsLifecycle(w, ops[0], Step(env, w, ops[0]).ledger.reservations, r, q);
      ReservationsFollowLifecycle(env, Step(env, w, ops[0]), ops[1..], r, q);
      FollowsTwice(w.ledger.reservations[r], Step(env, w, ops[0]).ledger.reservations[r], Run(env, w, ops).ledger.reservations[r]);
    }
  }

  /** An UNKNOWN hold is freed only by a reconcile whose client answered FAILED; until then its budget stays taken. */
  lemma {:induction false} UnknownStays(env: Env, w: World, ops: seq<Op>, r: L.Id, q: Id)
    requires Inv(w) && Backs(w.ledger.reservations, r, q) && w.ledger.reservations[r].status == L.UNKNOWN
    requires forall op :: op in ops ==> !ReconciledAsFailed(op, q)
    ensures var rs' := Run(env, w, ops).ledger.reservations; r in rs' && rs'[r] == w.ledger.reservations[r]
    decreases |ops|
  {
    if ops != [] {
      StepKeepsInv(env, w, ops[0]);
      StepMovesReservation(env, w, ops[0], r, q);
      MoveFollowsLifecycle(w, ops[0], Step(env, w, ops[0]).ledger.reservations, r, q);
      assert !ReconciledAsFailed(ops[0], q);
      UnknownStays(env, Step(env, w, ops[0]), ops[1..], r, q);
    }
  }

  lemma {:induction false} UnknownIsFreedByReconcileOnly(env: Env, w: World, ops: seq<Op>, r: L.Id, q: Id)
    requires Inv(w) && Backs(w.ledger.reservations, r, q) && w.ledger.reservations[r].status == L.UNKNOWN
    requires forall op :: op in ops ==> !ReconciledAsFailed(op, q)
    ensures var s', before := Run(env, w, ops).ledger, w.ledger.reservations[r];
      && r in s'.reservations && s'.reservations[r] == before
      && before.accountId in s'.accounts && s'.accounts[before.accountId].reserved >= before.amount
  {
    UnknownStays(env, w, ops, r, q);
    RunKeepsInv(env, w, ops);
    L.StepHoldsAmount(Run(env, w, ops).ledger, r);
  }

  /**
   * The outcome is reported UNKNOWN, reconciliation finds CONFIRMED, and verification finds
   * equal receipts: the request is CONFIRMED with its proof stored, and the money is not
   * committed, neither now nor in any continuation.
   */
  lemma ConfirmedUnknownIsNeverCommitted(
    env: Env, w: World, companyId: string, q: Id, r: L.Id, hash: Option<string>, receipt: Receipt, more: seq<Op>)
    requires Inv(w) && Known(w, companyId, q) && Backs(w.ledger.reservations, r, q) && w.ledger.reservations[r].status == L.RESERVED
    ensures var w1 := Step(env, w, OpIngest(companyId, ResultInput(q, UNKNOWN, w.requests[q].network, hash, true)));
      var w2 := Step(env, w1, OpReconcile(companyId, q, CONFIRMED));
      var (w3, answer) := Verify(w2, companyId, q, receipt, receipt, true);
      && q in w3.requests && w3.requests[q].status == CONFIRMED
      && answer.Ok? && Proves(answer.value.0, q) && answer.value.0 in w3.verifications && !answer.value.1
      && r in w3.ledger.reservations && w3.ledger.reservations[r] == w.ledger.reservations[r].(status := L.UNKNOWN)
      && r in Run(env, w3, more).ledger.reservations
      && Run(env, w3, more).ledger.reservations[r].status in {L.UNKNOWN, L.RELEASED}
  {
    var w1 := Step(env, w, OpIngest(companyId, ResultInput(q, UNKNOWN, w.requests[q].network, hash, true)));
    IngestedAsUnknown(env, w, companyId, q, r, hash);
    var w2 := Step(env, w1, OpReconcile(companyId, q, CONFIRMED));
    ReconciledAsConfirmed(env, w1, companyId, q, r);
    VerifiedButNotCommitted(env, w2, companyId, q, r, receipt);
    ReservationsFollowLifecycle(env, Verify(w2, companyId, q, receipt, receipt, true).0, more, r, q);
  }

  lemma IngestedAsUnknown(env: Env, w: World, companyId: string, q: Id, r: L.Id, hash: Option<string>)
    requires Inv(w) && Known(w, companyId, q) && Backs(w.ledger.reservations, r, q) && w.ledger.reservations[r].status == L.RESERVED
    ensures var w' := Step(env, w, OpIngest(companyId, ResultInput(q, UNKNOWN, w.requests[q].network, hash, true)));
      && Inv(w') && Known(w', companyId, q)
      && r in w'.ledger.reservations && w'.ledger.reservations[r] == w.ledger.reservations[r].(status := L.UNKNOWN)
  {
    var op := OpIngest(companyId, ResultInput(q, UNKNOWN, w.requests[q].network, hash, true));
    StepKeepsInv(env, w, op);
    StepMovesReservation(env, w, op, r, q);
  }

  lemma ReconciledAsConfirmed(env: Env, w: World, companyId: string, q: Id, r: L.Id)
    requires Inv(w) && Known(w, companyId, q) && Backs(w.ledger.reservations, r, q)
    ensures var w' := Step(env, w, OpReconcile(companyId, q, CONFIRMED));
      && Inv(w') && Known(w', companyId, q) && w'.requests[q].status == CONFIRMED
      && r in w'.ledger.reservations && w'.ledger.reservations[r] == w.ledger.reservations[r]
  {
    StepKeepsInv(env, w, OpReconcile(companyId, q, CONFIRMED));
    StepMovesReservation(env, w, OpReconcile(companyId, q, CONFIRMED), r, q);
  }

  /** The last of those calls. */
  lemma VerifiedButNotCommitted(env: Env, w: World, companyId: string, q: Id, r: L.Id, receipt: Receipt)
    requires Inv(w) && Known(w, companyId, q) && Backs(w.ledger.reservations, r, q) && w.ledger.reservations[r].status == L.UNKNOWN
    ensures var (w', answer) := Verify(w, companyId, q, receipt, receipt, true);
      && Inv(w') && w'.requests == w.requests
      && answer.Ok? && Proves(answer.value.0, q) && answer.value.0 in w'.verifications && !answer.value.1
      && r in w'.ledger.reservations && w'.ledger.reservations[r] == w.ledger.reservations[r]
  {
    NoDiscrepancies(receipt, receipt, true);
    var v := VerificationOf(q, receipt, receipt, true);
    var w1 := w.(verifications := w.verifications + [v]);
    LookupFinds(w1, companyId, r, q, {L.RESERVED});
    StepKeepsInv(env, w, OpVerify(companyId, q, receipt, receipt, true));
    StepMovesReservation(env, w, OpVerify(companyId, q, receipt, receipt, true), r, q);
    assert v == w1.verifications[|w.verifications|];
  }

  // ------------------------------------------------------------- when a call may mint

  /** The amount fits its bucket, next to everything held or spent there. */
  ghost predicate Fits(s: L.State, input: L.ReserveInput) {
    forall a :: a in s.accounts && s.accounts[a].key == input.key && s.accounts[a].limit.Some? ==>
      L.SumAt(s.reservations, a, {L.RESERVED, L.UNKNOWN, L.COMMITTED}) + input.amount <= s.accounts[a].limit.value
  }

  /** The key was never registered, or by an equal body whose reservation was refused. */
  ghost predicate KeyIsFree(w: World, plan: Plan) {
    var key := RegistrationKey(plan.companyId, plan.key);
    && (key in w.registrations ==> w.registrations[key].requestHash == plan.bodyHash)
    && forall q :: q in w.requests ==> !IsRequestFor(w.requests[q], plan.companyId, plan.key)
  }

  /** One new request and one new reservation bound to it, of the planned amount in the planned bucket. */
  ghost predicate Minted(w: World, w': World, plan: Plan, id: L.Id) {
    && w'.requests == w.requests[w.nextRequest := plan.request]
    && id !in w.ledger.reservations && id in w'.ledger.reservations
    && w'.ledger.reservations == w.ledger.reservations[id := w'.ledger.reservations[id]]
    && MintedReservation(w'.ledger, id, plan, w.nextRequest)
  }

  predicate MintedReservation(s: L.State, id: L.Id, plan: Plan, q: Id)
    requires id in s.reservations
  {
    && IsBound(s.reservations[id], plan.companyId, q, {L.RESERVED})
    && s.reservations[id].amount == plan.reserve.amount
    && s.reservations[id].accountId in s.accounts
    && s.accounts[s.reservations[id].accountId].key == plan.reserve.key
  }

  ghost predicate MintResult(w: World, plan: Plan, result: (World, Result<Outcome>)) {
    && result.1.Ok? && result.1.value.reservation.Some? && Minted(w, result.0, plan, result.1.value.reservation.value)
    && result.1.value == Outcome(D.ALLOW, D.ALLOWED, Some(w.nextRequest), result.1.value.reservation)
  }

  ghost predicate NothingMinted(w: World, result: (World, Result<Outcome>)) {
    && result.0.requests == w.requests && result.0.ledger == w.ledger
    && (result.1.Ok? ==> result.1.value.reservation.None?)
  }

  lemma FinishExactly(w: World, ledger: L.State, reserved: Result<L.Id>, plan: Plan)
    requires Coherent(plan) && ReservesOne(w.ledger, plan.reserve, ledger, reserved)
    ensures var result := Finish(w, ledger, reserved, plan);
      if reserved.Ok? then MintResult(w, plan, result) else NothingMinted(w, result)
  {
    if reserved.Ok? {
      var id := reserved.value;
      var r := ledger.reservations[id].(executionRequestId := Some(w.nextRequest));
      assert ledger.reservations[id := r] == w.ledger.reservations[id := r];
    }
  }

  lemma ReserveAndMintExactly(w: World, plan: Plan)
    requires L.Inv(w.ledger) && Coherent(plan)
    ensures if Fits(w.ledger, plan.reserve) then MintResult(w, plan, ReserveAndMint(w, plan)) else NothingMinted(w, ReserveAndMint(w, plan))
  {
    var (ledger, reserved) := L.Reserve(w.ledger, plan.reserve);
    ReserveMakesOne(w.ledger, plan.reserve);
    FinishExactly(w, ledger, reserved, plan);
  }

  lemma ProceedExactly(w: World, decision: D.Decision, plan: Plan)
    requires L.Inv(w.ledger) && Coherent(plan)
    ensures if decision.result == D.ALLOW && KeyIsFree(w, plan) && Fits(w.ledger, plan.reserve)
      then MintResult(w, plan, Proceed(w, decision, plan)) else NothingMinted(w, Proceed(w, decision, plan))
  {
    if decision.result == D.ALLOW {
      var key := RegistrationKey(plan.companyId, plan.key);
      var w1 := w.(registrations := I.Register(w.registrations, key, plan.bodyHash).0);
      ReserveAndMintExactly(w1, plan);
    }
  }

  /**
   * A call adds a request exactly when the decision freshly derived from the rows it reads
   * is ALLOW, the key is free and the amount fits; then it adds one request and one
   * reservation for it. Any other call - DENY, REVIEW, replay, conflict, over budget -
   * leaves the requests and the whole ledger alone.
   */
  lemma MintsExactlyWhenAllowed(env: Env, w: World, input: RevalidateInput, auth: Authority)
    requires Inv(w)
    ensures var result := Revalidate(env, w, input, auth); var plan := PlanOf(env, input, auth);
      if FreshDecision(env, input, auth).result == D.ALLOW && KeyIsFree(w, plan) && Fits(w.ledger, plan.reserve)
      then MintResult(w, plan, result) else NothingMinted(w, result)
  {
    PlanIsCoherent(env, input, auth);
    ProceedExactly(w, FreshDecision(env, input, auth), PlanOf(env, input, auth));
  }

  /** The key is registered for that body, and `q` is its one request. */
  ghost predicate KeyIsTaken(w: World, plan: Plan, q: Id) {
    var key := RegistrationKey(plan.companyId, plan.key);
    && key in w.registrations && w.registrations[key].requestHash == plan.bodyHash
    && q in w.requests && IsRequestFor(w.requests[q], plan.companyId, plan.key)
    && forall p :: p in w.requests && p != q ==> !IsRequestFor(w.requests[p], plan.companyId, plan.key)
  }

  lemma TakenKeyReplays(w: World, decision: D.Decision, plan: Plan, q: Id)
    requires decision.result == D.ALLOW && KeyIsTaken(w, plan, q)
    ensures Proceed(w, decision, plan) == (w, Ok(Outcome(D.ALLOW, D.ALLOW_IDEMPOTENT, Some(q), None)))
  {
    assert FindRequest(w, plan.companyId, plan.key) == Some(q);
  }

  lemma MintingKeepsRegistrations(w: World, plan: Plan)
    ensures ReserveAndMint(w, plan).0.registrations == w.registrations
  {
  }

  lemma ProceedRegisters(w: World, decision: D.Decision, plan: Plan)
    requires decision.result == D.ALLOW && KeyIsFree(w, plan)
    ensures var key := RegistrationKey(plan.companyId, plan.key); var table := Proceed(w, decision, plan).0.registrations;
      key in table && table[key].requestHash == plan.bodyHash
  {
    var key := RegistrationKey(plan.companyId, plan.key);
    MintingKeepsRegistrations(w.(registrations := I.Register(w.registrations, key, plan.bodyHash).0), plan);
  }

  lemma MintTakesTheKey(w: World, decision: D.Decision, plan: Plan)
    requires L.Inv(w.ledger) && Coherent(plan) && decision.result == D.ALLOW
    requires KeyIsFree(w, plan) && Fits(w.ledger, plan.reserve)
    ensures KeyIsTaken(Proceed(w, decision, plan).0, plan, w.nextRequest)
  {
    ProceedRegisters(w, decision, plan);
    ProceedExactly(w, decision, plan);
    var result := Proceed(w, decision, plan);
    MintedTakesTheKey(w, result.0, plan, result.1.value.reservation.value);
  }

  lemma MintedTakesTheKey(w: World, w': World, plan: Plan, id: L.Id)
    requires Minted(w, w', plan, id) && Coherent(plan) && KeyIsFree(w, plan)
    requires var key := RegistrationKey(plan.companyId, plan.key);
      key in w'.registrations && w'.registrations[key].requestHash == plan.bodyHash
    ensures KeyIsTaken(w', plan, w.nextRequest)
  {
  }

  /** Calling again with the same payload and body - at any time, on any rows that still allow it - returns the first request and changes nothing. */
  lemma ReplayReturnsTheRequest(env: Env, w: World, input: RevalidateInput, auth: Authority, again: RevalidateInput, auth2: Authority)
    requires Inv(w) && input.companyId == again.companyId
    requires PayloadHash(env, input) == PayloadHash(env, again) && BodyOf(input) == BodyOf(again)
    requires FreshDecision(env, input, auth).result == D.ALLOW && FreshDecision(env, again, auth2).result == D.ALLOW
    requires KeyIsFree(w, PlanOf(env, input, auth)) && Fits(w.ledger, ReserveInputOf(input))
    ensures var w1 := Revalidate(env, w, input, auth).0;
      Revalidate(env, w1, again, auth2) == (w1, Ok(Outcome(D.ALLOW, D.ALLOW_IDEMPOTENT, Some(w.nextRequest), None)))
  {
    PlanIsCoherent(env, input, auth);
    MintTakesTheKey(w, FreshDecision(env, input, auth), PlanOf(env, input, auth));
    TakenKeyReplays(Revalidate(env, w, input, auth).0, FreshDecision(env, again, auth2), PlanOf(env, again, auth2), w.nextRequest);
  }
}
