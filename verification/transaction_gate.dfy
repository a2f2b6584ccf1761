/**
 * The transaction gate: does the concrete transaction say what the proposal said, and is
 * the simulation bound to it? A decimal amount carries its text and what it denotes, in a
 * smallest unit.
 */
module TransactionGate {
  import opened Wrappers
  import opened JsonCanonical

  datatype Decimal = Decimal(text: string, units: int)

  datatype Money = Money(amount: Decimal, currency: string)

  datatype Recipient = Recipient(address: Option<string>, identifier: Option<string>, network: Option<string>)

  datatype Proposal = Proposal(
    proposalId: string, actionType: string, recipient: Option<Recipient>, amount: Option<Money>, network: Option<string>)

  datatype AnalysisStatus = VALID | SUSPICIOUS | INVALID

  datatype Analysis = Analysis(
    recipient: string, amount: Decimal, asset: string, contractAddress: string, functionName: string,
    functionSelector: string, riskFlags: seq<string>, status: AnalysisStatus)

  datatype Networks = Networks(expected: string, actual: string)

  datatype GateField = RECIPIENT | AMOUNT | ASSET | NETWORK | ANALYSIS_STATUS | FUNCTION | RISK_FLAGS

  // ---------------------------------------------------- proposal against transaction

  function ProposalRecipient(p: Proposal): Option<string> {
    if p.recipient.None? then None
    else if p.recipient.value.address.Some? then p.recipient.value.address
    else p.recipient.value.identifier
  }

  /** A named function other than the three that pay. */
  predicate IsForeignFunction(name: string) {
    name != "" && name != "transfer" && name != "transferFrom" && name != "pay"
  }

  /** The transaction departs from the proposal in this field. */
  predicate Differs(p: Proposal, a: Analysis, n: Networks, simplePayment: bool, field: GateField) {
    match field
    case RECIPIENT => ProposalRecipient(p) != Some(a.recipient)
    case AMOUNT => p.amount.None? || p.amount.value.amount.units != a.amount.units
    case ASSET => p.amount.None? || p.amount.value.currency != a.asset
    case NETWORK => n.expected != n.actual
    case ANALYSIS_STATUS => a.status != VALID
    case FUNCTION => simplePayment && IsForeignFunction(a.functionName)
    case RISK_FLAGS => simplePayment && a.riskFlags != []
  }

  ghost predicate Matches(p: Proposal, a: Analysis, n: Networks, simplePayment: bool) {
    forall field :: !Differs(p, a, n, simplePayment, field)
  }

  /** Add the field to a report if it differs. */
  function Note(p: Proposal, a: Analysis, n: Networks, simplePayment: bool, mismatches: seq<GateField>, field: GateField): seq<GateField> {
    if Differs(p, a, n, simplePayment, field) then mismatches + [field] else mismatches
  }

  /** The report covers the given fields: exactly those that differ, each once. */
  ghost predicate Reports(p: Proposal, a: Analysis, n: Networks, simplePayment: bool, mismatches: seq<GateField>, fields: set<GateField>) {
    && (forall field :: field in mismatches <==> field in fields && Differs(p, a, n, simplePayment, field))
    && (forall i, j :: 0 <= i < j < |mismatches| ==> mismatches[i] != mismatches[j])
  }

  lemma NoteReports(p: Proposal, a: Analysis, n: Networks, simplePayment: bool, mismatches: seq<GateField>, fields: set<GateField>, field: GateField)
    requires Reports(p, a, n, simplePayment, mismatches, fields) && field !in fields
    ensures Reports(p, a, n, simplePayment, Note(p, a, n, simplePayment, mismatches, field), fields + {field})
  {
  }

  lemma AllNoted(p: Proposal, a: Analysis, n: Networks, simplePayment: bool, m0: seq<GateField>, m1: seq<GateField>,
                 m2: seq<GateField>, m3: seq<GateField>, m4: seq<GateField>, m5: seq<GateField>, m6: seq<GateField>)
    requires m0 == Note(p, a, n, simplePayment, [], RECIPIENT) && m1 == Note(p, a, n, simplePayment, m0, AMOUNT)
    requires m2 == Note(p, a, n, simplePayment, m1, ASSET) && m3 == Note(p, a, n, simplePayment, m2, NETWORK)
    requires m4 == Note(p, a, n, simplePayment, m3, ANALYSIS_STATUS) && m5 == Note(p, a, n, simplePayment, m4, FUNCTION)
    requires m6 == Note(p, a, n, simplePayment, m5, RISK_FLAGS)
    ensures Reports(p, a, n, simplePayment, m6, {RECIPIENT, AMOUNT, ASSET, NETWORK, ANALYSIS_STATUS, FUNCTION, RISK_FLAGS})
  {
    NoteReports(p, a, n, simplePayment, [], {}, RECIPIENT);
    NoteReports(p, a, n, simplePayment, m0, {RECIPIENT}, AMOUNT);
    NoteReports(p, a, n, simplePayment, m1, {RECIPIENT, AMOUNT}, ASSET);
    NoteReports(p, a, n, simplePayment, m2, {RECIPIENT, AMOUNT, ASSET}, NETWORK);
    NoteReports(p, a, n, simplePayment, m3, {RECIPIENT, AMOUNT, ASSET, NETWORK}, ANALYSIS_STATUS);
    NoteReports(p, a, n, simplePayment, m4, {RECIPIENT, AMOUNT, ASSET, NETWORK, ANALYSIS_STATUS}, FUNCTION);
    NoteReports(p, a, n, simplePayment, m5, {RECIPIENT, AMOUNT, ASSET, NETWORK, ANALYSIS_STATUS, FUNCTION}, RISK_FLAGS);
  }

  /** A report of all fields is a match exactly when it is empty. */
  lemma EmptyReportMatches(p: Proposal, a: Analysis, n: Networks, simplePayment: bool, mismatches: seq<GateField>)
    requires Reports(p, a, n, simplePayment, mismatches, {RECIPIENT, AMOUNT, ASSET, NETWORK, ANALYSIS_STATUS, FUNCTION, RISK_FLAGS})
    ensures forall field :: field in mismatches <==> Differs(p, a, n, simplePayment, field)
    ensures mismatches == [] <==> Matches(p, a, n, simplePayment)
  {
    if mismatches != [] {
      assert Differs(p, a, n, simplePayment, mismatches[0]);
    }
  }

  /** Reports each field that differs, once; an empty report is a match. */
  method CompareProposalVsTransaction(p: Proposal, a: Analysis, n: Networks, simplePayment: bool)
    returns (mismatches: seq<GateField>)
    ensures forall field :: field in mismatches <==> Differs(p, a, n, simplePayment, field)
    ensures forall i, j :: 0 <= i < j < |mismatches| ==> mismatches[i] != mismatches[j]
    ensures mismatches == [] <==> Matches(p, a, n, simplePayment)
  {
    mismatches := [];
    var expectedRecipient := ProposalRecipient(p);
    if expectedRecipient != Some(a.recipient) { mismatches := mismatches + [RECIPIENT]; }
    assert mismatches == Note(p, a, n, simplePayment, [], RECIPIENT);
    ghost var m0 := mismatches;
    if p.amount.None? || p.amount.value.amount.units != a.amount.units { mismatches := mismatches + [AMOUNT]; }
    ghost var m1 := mismatches;
    assert m1 == Note(p, a, n, simplePayment, m0, AMOUNT);
    if p.amount.None? || p.amount.value.currency != a.asset { mismatches := mismatches + [ASSET]; }
    ghost var m2 := mismatches;
    assert m2 == Note(p, a, n, simplePayment, m1, ASSET);
    if n.expected != n.actual { mismatches := mismatches + [NETWORK]; }
    ghost var m3 := mismatches;
    assert m3 == Note(p, a, n, simplePayment, m2, NETWORK);
    if a.status != VALID { mismatches := mismatches + [ANALYSIS_STATUS]; }
    ghost var m4, m5 := mismatches, mismatches;
    if simplePayment {
      if IsForeignFunction(a.functionName) { mismatches := mismatches + [FUNCTION]; }
      m5 := mismatches;
      if a.riskFlags != [] { mismatches := mismatches + [RISK_FLAGS]; }
    }
    AllNoted(p, a, n, simplePayment, m0, m1, m2, m3, m4, m5, mismatches);
    EmptyReportMatches(p, a, n, simplePayment, mismatches);
  }

  // ------------------------------------------------------------------- payload hash

  /** The fields of a transaction a simulation is valid for. */
  datatype Payload = Payload(
    transactionId: string, network: string, recipient: string, amount: string, asset: string,
    contractAddress: Option<string>, functionSelector: Option<string>)

  function PayloadOf(transactionId: string, network: string, a: Analysis): Payload {
    Payload(transactionId, network, a.recipient, a.amount.text, a.asset, Some(a.contractAddress), Some(a.functionSelector))
  }

  function Nullable(s: Option<string>): Json {
    if s.Some? then JStr(s.value) else JNull
  }

  function PayloadPreImage(p: Payload): seq<Field> {
    [Field("transactionId", JStr(p.transactionId)), Field("network", JStr(p.network)), Field("recipient", JStr(p.recipient)),
     Field("amount", JStr(p.amount)), Field("asset", JStr(p.asset)), Field("contractAddress", Nullable(p.contractAddress)),
     Field("functionSelector", Nullable(p.functionSelector))]
  }

  function PayloadHash(digest: Json -> string, p: Payload): string {
    Hash(digest, JObj(PayloadPreImage(p)))
  }

  lemma DistinctNames(fs: seq<Field>)
    requires |fs| == 7 && fs[0].key == "transactionId" && fs[1].key == "network" && fs[2].key == "recipient"
    requires fs[3].key == "amount" && fs[4].key == "asset" && fs[5].key == "contractAddress" && fs[6].key == "functionSelector"
    ensures DistinctKeys(fs) && forall i :: 0 <= i < |fs| ==> fs[i].key != PROTO
  {
    assert |fs[0].key| == 13 && |fs[1].key| == 7 && |fs[2].key| == 9 && |fs[3].key| == 6 && |fs[4].key| == 5
        && |fs[5].key| == 15 && |fs[6].key| == 16;
    assert |PROTO| == 9 && PROTO[0] == '_' && fs[2].key[0] == 'r';
  }

  lemma CanonOfNullable(a: Option<string>, b: Option<string>)
    ensures Canon(Nullable(a)) == Canon(Nullable(b)) <==> a == b
  {
  }

  lemma FieldsSayAll(p: Payload, q: Payload)
    requires forall i :: 0 <= i < 7 ==> Canon(PayloadPreImage(p)[i].value) == Canon(PayloadPreImage(q)[i].value)
    ensures p == q
  {
    var fs, gs := PayloadPreImage(p), PayloadPreImage(q);
    assert Canon(fs[0].value) == Canon(gs[0].value) && Canon(fs[1].value) == Canon(gs[1].value);
    assert Canon(fs[2].value) == Canon(gs[2].value) && Canon(fs[3].value) == Canon(gs[3].value);
    assert Canon(fs[4].value) == Canon(gs[4].value);
    assert Canon(fs[5].value) == Canon(gs[5].value) && Canon(fs[6].value) == Canon(gs[6].value);
    CanonOfNullable(p.contractAddress, q.contractAddress);
    CanonOfNullable(p.functionSelector, q.functionSelector);
  }

  /** Any change of a payload field changes the hash, when the digest is injective. */
  lemma PayloadHashSeparates(digest: Json -> string, p: Payload, q: Payload)
    requires Injective(digest)
    ensures PayloadHash(digest, p) == PayloadHash(digest, q) <==> p == q
  {
    if PayloadHash(digest, p) == PayloadHash(digest, q) {
      DistinctNames(PayloadPreImage(p));
      RecordsAgree(PayloadPreImage(p), PayloadPreImage(q));
      FieldsSayAll(p, q);
    }
  }

  // --------------------------------------------------------------------- simulation

  datatype SimulationStatus = PASS | REVERT | UNEXPECTED_STATE_CHANGE | INSUFFICIENT_FUNDS | UNSUPPORTED | ERROR

  datatype Simulation = Simulation(transactionId: string, status: SimulationStatus)

  datatype Binding = BOUND | STALE | WRONG_TRANSACTION

  datatype SimulationOutcome = CONTINUE | REJECT | FLAG | FAIL_CLOSED

  function ValidateSimulationBinding(s: Simulation, transactionId: string, simulatedHash: string, currentHash: string): Binding {
    if s.transactionId != transactionId then WRONG_TRANSACTION
    else if simulatedHash != currentHash then STALE
    else BOUND
  }

  function ClassifySimulation(s: Simulation): SimulationOutcome {
    match s.status
    case PASS => CONTINUE
    case REVERT => REJECT
    case INSUFFICIENT_FUNDS => REJECT
    case UNEXPECTED_STATE_CHANGE => FLAG
    case ERROR => FAIL_CLOSED
    case UNSUPPORTED => FAIL_CLOSED
  }

  /** A bound simulation was recorded for this transaction with exactly this payload. */
  lemma BoundSimulationIsOfThisPayload(digest: Json -> string, s: Simulation, current: Payload, simulated: Payload)
    requires Injective(digest)
    ensures ValidateSimulationBinding(s, current.transactionId, PayloadHash(digest, simulated), PayloadHash(digest, current)) == BOUND
      <==> s.transactionId == current.transactionId && simulated == current
  {
    PayloadHashSeparates(digest, simulated, current);
  }

  // -------------------------------------------------------------- what the gate says

  /** A match, field by field. */
  lemma MatchMeans(p: Proposal, a: Analysis, n: Networks, simplePayment: bool)
    ensures Matches(p, a, n, simplePayment) <==>
      && p.recipient.Some? && (if p.recipient.value.address.Some? then p.recipient.value.address == Some(a.recipient)
                               else p.recipient.value.identifier == Some(a.recipient))
      && p.amount.Some? && p.amount.value.amount.units == a.amount.units && p.amount.value.currency == a.asset
      && n.expected == n.actual && a.status == VALID
      && (simplePayment ==> a.functionName in {"", "transfer", "transferFrom", "pay"} && |a.riskFlags| == 0)
  {
    if Matches(p, a, n, simplePayment) {
      assert !Differs(p, a, n, simplePayment, RECIPIENT) && !Differs(p, a, n, simplePayment, AMOUNT);
      assert !Differs(p, a, n, simplePayment, ASSET) && !Differs(p, a, n, simplePayment, NETWORK);
      assert !Differs(p, a, n, simplePayment, ANALYSIS_STATUS) && !Differs(p, a, n, simplePayment, FUNCTION);
      assert !Differs(p, a, n, simplePayment, RISK_FLAGS);
    }
  }

  /** Why a simulation is not bound. */
  lemma BindingSaysWhy(s: Simulation, transactionId: string, simulatedHash: string, currentHash: string)
    ensures var b := ValidateSimulationBinding(s, transactionId, simulatedHash, currentHash);
      && (b == WRONG_TRANSACTION <==> s.transactionId != transactionId)
      && (b == STALE <==> s.transactionId == transactionId && simulatedHash != currentHash)
      && (b == BOUND <==> s.transactionId == transactionId && simulatedHash == currentHash)
  {
  }

  /** A pass lets the payment go on, a failure of the payment itself rejects it, and no answer fails closed. */
  lemma SimulationMeans(s: Simulation)
    ensures ClassifySimulation(s) == CONTINUE <==> s.status == PASS
    ensures ClassifySimulation(s) == REJECT <==> s.status in {REVERT, INSUFFICIENT_FUNDS}
    ensures ClassifySimulation(s) == FLAG <==> s.status == UNEXPECTED_STATE_CHANGE
    ensures ClassifySimulation(s) == FAIL_CLOSED <==> s.status in {ERROR, SimulationStatus.UNSUPPORTED}
  {
  }

  /** The payload a transaction is hashed by, part by part. */
  lemma PayloadNamesItsParts(transactionId: string, network: string, a: Analysis)
    ensures var p := PayloadOf(transactionId, network, a);
      && p.transactionId == transactionId && p.network == network && p.recipient == a.recipient && p.amount == a.amount.text
      && p.asset == a.asset && p.contractAddress == Some(a.contractAddress) && p.functionSelector == Some(a.functionSelector)
  {
  }
}
