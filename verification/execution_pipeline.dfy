/**
 * The execution pipeline over its in-memory idempotency store: two maps that are written
 * around one broadcast. Everything outside (RPC, simulator, signer, receipt source) is an
 * arbitrary answer given with the call.
 */
module ExecutionPipeline {
  import opened Wrappers
  import opened Transactions
  import M = Money

  type Hash = string

  datatype ExecStatus = PENDING | CONFIRMED | FAILED | UNKNOWN

  datatype ExecutionResult = ExecutionResult(
    executionId: string, status: ExecStatus, transactionHash: Option<Hash>, chain: string, idempotencyKey: string)

  datatype Record = Record(
    executionId: string, idempotencyKey: string, result: ExecutionResult,
    authorized: Expectation, verification: Option<Verification>)

  datatype Request = Request(executionId: string, transactionId: string, network: string, idempotencyKey: string)

  // ----------------------------------------------------------------------- store

  datatype Store = Store(keyIndex: map<string, string>, records: map<string, Record>)

  /** An empty execution id reads as absent. */
  function ByKey(s: Store, key: string): Option<Record> {
    if key in s.keyIndex && s.keyIndex[key] != "" && s.keyIndex[key] in s.records
    then Some(s.records[s.keyIndex[key]]) else None
  }

  function ByExecutionId(s: Store, id: string): Option<Record> {
    if id in s.records then Some(s.records[id]) else None
  }

  function Put(s: Store, r: Record): Store {
    Store(s.keyIndex[r.idempotencyKey := r.executionId], s.records[r.executionId := r])
  }

  function SetResult(s: Store, id: string, result: ExecutionResult): Store {
    if id in s.records then s.(records := s.records[id := s.records[id].(result := result)]) else s
  }

  function SetVerification(s: Store, id: string, v: Verification): Store {
    if id in s.records then s.(records := s.records[id := s.records[id].(verification := Some(v))]) else s
  }

  class InMemoryIdempotencyStore {
    var keyIndex: map<string, string>
    var records: map<string, Record>

    constructor ()
      ensures Contents() == Store(map[], map[])
    {
      keyIndex, records := map[], map[];
    }

    function Contents(): Store
      reads this
    {
      Store(keyIndex, records)
    }

    method FindByKey(key: string) returns (r: Option<Record>)
      ensures r == ByKey(Contents(), key)
    {
      var id := if key in keyIndex then keyIndex[key] else "";
      r := if id != "" && id in records then Some(records[id]) else None;
    }

    method FindByExecutionId(id: string) returns (r: Option<Record>)
      ensures r == ByExecutionId(Contents(), id)
    {
      r := if id in records then Some(records[id]) else None;
    }

    method PutRecord(record: Record)
      modifies this
      ensures Contents() == Put(old(Contents()), record)
    {
      records := records[record.executionId := record];
      keyIndex := keyIndex[record.idempotencyKey := record.executionId];
    }

    method UpdateResult(id: string, result: ExecutionResult)
      modifies this
      ensures Contents() == SetResult(old(Contents()), id, result)
    {
      if id in records {
        records := records[id := records[id].(result := result)];
      }
    }

    method UpdateVerification(id: string, v: Verification)
      modifies this
      ensures Contents() == SetVerification(old(Contents()), id, v)
    {
      if id in records {
        records := records[id := records[id].(verification := Some(v))];
      }
    }
  }

  // ------------------------------------------------------------- the environment

  datatype Simulation = Simulation(pass: bool, payloadHash: Hash)

  datatype SubmitAnswer = Sent(hash: Hash) | Refused

  datatype ReceiptAnswer = NoReceipt | Receipt(parsed: ParsedReceipt) | LookupFailed

  /** What the outside answers to one call. A failed simulation call throws. */
  datatype Answers = Answers(
    chainMatches: bool, simulation: Option<Simulation>, submit: SubmitAnswer, receipt: ReceiptAnswer)

  /** Fixed configuration: chains, addresses, the signer's address and the payload hash. */
  datatype Config = Config(
    codec: AddressCodec, registry: Registry, signer: string, payloadHash: TransactionRequest -> Hash)

  /** One call of `signer.sendTransaction`, with the request it was for and the simulation that went before it. */
  datatype Broadcast = Broadcast(
    key: string, executionId: string, tx: TransactionRequest, expectation: Expectation, simulated: Simulation, hash: Option<Hash>)

  datatype State = State(store: Store, sent: seq<Broadcast>)

  const START := State(Store(map[], map[]), [])

  datatype Call = Call(request: Request, intent: Intent, expectation: Expectation, answers: Answers)

  function MkResult(r: Request, status: ExecStatus, hash: Option<Hash>): ExecutionResult {
    ExecutionResult(r.executionId, status, hash, r.network, r.idempotencyKey)
  }

  function NewRecord(r: Request, result: ExecutionResult, exp: Expectation): Record {
    Record(r.executionId, r.idempotencyKey, result, exp, None)
  }

  /** Steps 1 to 5: the transaction to submit, if nothing blocks it. */
  function Prepare(cfg: Config, call: Call): Result<TransactionRequest> {
    if call.request.network !in cfg.registry then Err(CONFIG_ERROR)
    else if !call.answers.chainMatches then Err(CHAIN_MISMATCH)
    else
      match Build(cfg.codec, cfg.registry, call.intent, cfg.signer)
      case Err(e) => Err(e)
      case Ok(built) =>
        var tx := built.(transactionId := call.request.transactionId);
        match Discrepancies(cfg.codec, cfg.registry, tx, call.expectation)
        case Err(e) => Err(e)
        case Ok(labels) =>
          if labels != [] then Err(VALIDATION_FAILED)
          else
            match call.answers.simulation
            case None => Err(RPC_ERROR)
            case Some(sim) =>
              if cfg.payloadHash(tx) != sim.payloadHash then Err(STALE_SIMULATION)
              else if !sim.pass then Err(SIMULATION_FAILED)
              else Ok(tx)
  }

  function Outcome(call: Call, hash: Hash): Result<ExecutionResult> {
    match call.answers.receipt
    case NoReceipt => Ok(MkResult(call.request, UNKNOWN, Some(hash)))
    case Receipt(parsed) => Ok(MkResult(call.request, if parsed.success then CONFIRMED else FAILED, Some(hash)))
    case LookupFailed => Err(RPC_ERROR)
  }

  /** How `submit` ends: with a hash, with SUBMISSION_FAILED, or with another exception. */
  datatype Submission = Submitted(hash: Hash) | SubmissionFailed | Threw

  /** Whether the sender check lets the signer be called at all. */
  predicate SenderMatches(cfg: Config, tx: TransactionRequest) {
    cfg.codec.parse(tx.sender).Some? && cfg.codec.parse(tx.sender) == cfg.codec.parse(cfg.signer)
  }

  function SubmissionOf(cfg: Config, tx: TransactionRequest, answer: SubmitAnswer): Submission {
    if cfg.codec.parse(tx.sender).None? || cfg.codec.parse(cfg.signer).None? then Threw
    else if cfg.codec.parse(tx.sender) != cfg.codec.parse(cfg.signer) then SubmissionFailed
    else if answer.Sent? then Submitted(answer.hash)
    else SubmissionFailed
  }

  /** The broadcast of a prepared transaction, and what the answer makes of the store. */
  function AfterSubmit(cfg: Config, s: State, call: Call, tx: TransactionRequest, simulated: Simulation): (State, Result<ExecutionResult>) {
    var r := call.request;
    var submission := SubmissionOf(cfg, tx, call.answers.submit);
    var hash := if submission.Submitted? then Some(submission.hash) else None;
    var sent := s.sent
      + (if SenderMatches(cfg, tx) then [Broadcast(r.idempotencyKey, r.executionId, tx, call.expectation, simulated, hash)] else []);
    if submission.Submitted? then
      var pending := Put(s.store, NewRecord(r, MkResult(r, PENDING, hash), call.expectation));
      var outcome := Outcome(call, hash.value);
      (State(if outcome.Ok? then SetResult(pending, r.executionId, outcome.value) else pending, sent), outcome)
    else
      var result := MkResult(r, if submission.Threw? then UNKNOWN else FAILED, None);
      (State(Put(s.store, NewRecord(r, result, call.expectation)), sent), Ok(result))
  }

  function Execute(cfg: Config, s: State, call: Call): (State, Result<ExecutionResult>) {
    match ByKey(s.store, call.request.idempotencyKey)
    case Some(prior) => (s, Ok(prior.result))
    case None =>
      match Prepare(cfg, call)
      case Err(e) => (s, Err(e))
      case Ok(tx) => AfterSubmit(cfg, s, call, tx, call.answers.simulation.value)
  }

  ghost function Run(cfg: Config, s: State, calls: seq<Call>): State
    decreases |calls|
  {
    if calls == [] then s else Run(cfg, Execute(cfg, s, calls[0]).0, calls[1..])
  }

  // ---------------------------------------------------------------- the pipeline

  /** The signer: its broadcasts are the effect that must not happen twice. */
  class Signer {
    var sent: seq<Broadcast>

    constructor ()
      ensures sent == []
    {
      sent := [];
    }

    method SendTransaction(b: Broadcast, answer: SubmitAnswer) returns (r: Result<Hash>)
      modifies this
      ensures sent == old(sent) + [b.(hash := if answer.Sent? then Some(answer.hash) else None)]
      ensures r == if answer.Sent? then Ok(answer.hash) else Err(UNKNOWN_ERROR)
    {
      match answer {
        case Sent(hash) =>
          sent := sent + [b.(hash := Some(hash))];
          r := Ok(hash);
        case Refused =>
          sent := sent + [b.(hash := None)];
          r := Err(UNKNOWN_ERROR);
      }
    }
  }

  /** The one place that broadcasts; every failure there becomes SUBMISSION_FAILED. */
  class Submitter {
    const signer: Signer
    const cfg: Config

    constructor (signer: Signer, cfg: Config)
      ensures this.signer == signer && this.cfg == cfg
    {
      this.signer, this.cfg := signer, cfg;
    }

    method Submit(b: Broadcast, answer: SubmitAnswer) returns (r: Submission)
      modifies signer
      ensures r == SubmissionOf(cfg, b.tx, answer)
      ensures signer.sent == old(signer.sent)
        + (if SenderMatches(cfg, b.tx) then [b.(hash := if r.Submitted? then Some(r.hash) else None)] else [])
    {
      var from, own := cfg.codec.parse(b.tx.sender), cfg.codec.parse(cfg.signer);
      if from.None? || own.None? { return Threw; }
      if from != own { return SubmissionFailed; }
      var hash := signer.SendTransaction(b, answer);
      r := if hash.Ok? then Submitted(hash.value) else SubmissionFailed;
    }
  }

  class Pipeline {
    const cfg: Config
    const store: InMemoryIdempotencyStore
    const submitter: Submitter

    constructor (cfg: Config, store: InMemoryIdempotencyStore, submitter: Submitter)
      requires submitter.cfg == cfg
      ensures this.cfg == cfg && this.store == store && this.submitter == submitter && Valid()
    {
      this.cfg, this.store, this.submitter := cfg, store, submitter;
    }

    ghost predicate Valid() { submitter.cfg == cfg }

    function Contents(): State
      reads store, submitter.signer
    {
      State(store.Contents(), submitter.signer.sent)
    }

    method Run(call: Call) returns (r: Result<ExecutionResult>)
      requires Valid()
      modifies store, submitter.signer
      ensures (Contents(), r) == Execute(cfg, old(Contents()), call)
    {
      var request := call.request;
      var prior := store.FindByKey(request.idempotencyKey);
      if prior.Some? {
        return Ok(prior.value.result);
      }
      var prepared := Prepare(cfg, call);
      if prepared.Err? {
        return Err(prepared.error);
      }
      r := SubmitPrepared(call, prepared.value, call.answers.simulation.value);
    }

    /** Steps 7 and 8: submit, record, then record what the receipt says. */
    method SubmitPrepared(call: Call, tx: TransactionRequest, simulated: Simulation) returns (r: Result<ExecutionResult>)
      requires Valid()
      modifies store, submitter.signer
      ensures (Contents(), r) == AfterSubmit(cfg, old(Contents()), call, tx, simulated)
    {
      var request := call.request;
      var b := Broadcast(request.idempotencyKey, request.executionId, tx, call.expectation, simulated, None);
      var submission := submitter.Submit(b, call.answers.submit);
      if !submission.Submitted? {
        var result := MkResult(request, UNKNOWN, None);
        store.PutRecord(NewRecord(request, result, call.expectation));
        if submission.SubmissionFailed? {
          result := MkResult(request, FAILED, None);
          store.UpdateResult(request.executionId, result);
        }
        assert store.records == Put(old(store.Contents()), NewRecord(request, result, call.expectation)).records;
        return Ok(result);
      }
      store.PutRecord(NewRecord(request, MkResult(request, PENDING, Some(submission.hash)), call.expectation));
      match call.answers.receipt {
        case LookupFailed =>
          return Err(RPC_ERROR);
        case NoReceipt =>
          var unknown := MkResult(request, UNKNOWN, Some(submission.hash));
          store.UpdateResult(request.executionId, unknown);
          return Ok(unknown);
        case Receipt(parsed) =>
          var result := MkResult(request, if parsed.success then CONFIRMED else FAILED, Some(submission.hash));
          store.UpdateResult(request.executionId, result);
          return Ok(result);
      }
    }

    method GetResult(executionId: string) returns (r: Result<ExecutionResult>)
      ensures r == if executionId in store.records then Ok(store.records[executionId].result) else Err(UNKNOWN_ERROR)
    {
      var rec := store.FindByExecutionId(executionId);
      r := if rec.Some? then Ok(rec.value.result) else Err(UNKNOWN_ERROR);
    }

    /** Compare the recorded authorization with a freshly fetched receipt. */
    method Verify(executionId: string, answer: ReceiptAnswer) returns (r: Result<Verification>)
      modifies store
      ensures r == Reverified(cfg, old(store.Contents()), executionId, answer)
      ensures store.Contents() ==
        if r.Ok? then SetVerification(old(store.Contents()), executionId, r.value) else old(store.Contents())
    {
      var found := store.FindByExecutionId(executionId);
      if found.None? { return Err(UNKNOWN_ERROR); }
      var rec := found.value;
      if rec.result.transactionHash.None? || rec.result.transactionHash.value == "" { return Err(VERIFICATION_FAILED); }
      match answer {
        case LookupFailed => return Err(RPC_ERROR);
        case NoReceipt => return Err(UNKNOWN_ERROR);
        case Receipt(parsed) =>
          if Usdc(cfg.registry, rec.authorized.network).None? { return Err(CONFIG_ERROR); }
          r := VerifyReceipt(cfg.codec, ReceiptOf(cfg.registry, rec.authorized), parsed, rec.result.chain);
          if r.Ok? { store.UpdateVerification(executionId, r.value); }
      }
    }
  }

  function Reverified(cfg: Config, s: Store, executionId: string, answer: ReceiptAnswer): Result<Verification> {
    if executionId !in s.records then Err(UNKNOWN_ERROR)
    else
      var rec := s.records[executionId];
      if rec.result.transactionHash.None? || rec.result.transactionHash.value == "" then Err(VERIFICATION_FAILED)
      else
        match answer
        case LookupFailed => Err(RPC_ERROR)
        case NoReceipt => Err(UNKNOWN_ERROR)
        case Receipt(parsed) =>
          if Usdc(cfg.registry, rec.authorized.network).None? then Err(CONFIG_ERROR)
          else Verified(cfg.codec, ReceiptOf(cfg.registry, rec.authorized), parsed, rec.result.chain)
  }

  // --------------------------------------------------------- what a call answers and stores

  /** A call is prepared exactly when nothing stands against it: chain, builder, validator, and a fresh PASS simulation of its payload. */
  lemma PreparesExactly(cfg: Config, call: Call)
    ensures var built := Build(cfg.codec, cfg.registry, call.intent, cfg.signer);
      Prepare(cfg, call).Ok? <==>
        && call.request.network in cfg.registry && call.answers.chainMatches && built.Ok?
        && var tx := built.value.(transactionId := call.request.transactionId);
           && Discrepancies(cfg.codec, cfg.registry, tx, call.expectation) == Ok([])
           && call.answers.simulation == Some(Simulation(true, cfg.payloadHash(tx)))
    ensures Prepare(cfg, call).Ok? ==>
      Prepare(cfg, call).value == Build(cfg.codec, cfg.registry, call.intent, cfg.signer).value.(transactionId := call.request.transactionId)
  {
  }

  /** What stands against it is the error: the first of these that applies. */
  lemma RefusalSaysWhy(cfg: Config, s: State, call: Call)
    requires ByKey(s.store, call.request.idempotencyKey).None?
    ensures var (s', r) := Execute(cfg, s, call); var built := Build(cfg.codec, cfg.registry, call.intent, cfg.signer);
      && (Prepare(cfg, call).Err? ==> s' == s && r == Err(Prepare(cfg, call).error))
      && (call.request.network !in cfg.registry ==> r == Err(CONFIG_ERROR))
      && (call.request.network in cfg.registry && !call.answers.chainMatches ==> r == Err(CHAIN_MISMATCH))
      && (call.request.network in cfg.registry && call.answers.chainMatches && built.Err? ==> r == Err(built.error))
      && (call.request.network in cfg.registry && call.answers.chainMatches && built.Ok? ==>
            var tx := built.value.(transactionId := call.request.transactionId);
            var found := Discrepancies(cfg.codec, cfg.registry, tx, call.expectation);
            && (found.Err? ==> r == Err(found.error))
            && (found.Ok? && found.value != [] ==> r == Err(VALIDATION_FAILED))
            && (found == Ok([]) && call.answers.simulation.None? ==> r == Err(RPC_ERROR))
            && (found == Ok([]) && call.answers.simulation.Some? && call.answers.simulation.value.payloadHash != cfg.payloadHash(tx) ==>
                  r == Err(STALE_SIMULATION))
            && (found == Ok([]) && call.answers.simulation == Some(Simulation(false, cfg.payloadHash(tx))) ==> r == Err(SIMULATION_FAILED)))
  {
  }

  /** The status the outside answers call for, and the hash that goes with it. */
  ghost predicate StatusFits(cfg: Config, call: Call, tx: TransactionRequest, status: ExecStatus, hash: Option<Hash>) {
    var from, own := cfg.codec.parse(tx.sender), cfg.codec.parse(cfg.signer);
    if from.None? || own.None? then status == UNKNOWN && hash == None
    else if from != own || call.answers.submit == Refused then status == FAILED && hash == None
    else
      && hash == Some(call.answers.submit.hash)
      && (status == CONFIRMED <==> call.answers.receipt.Receipt? && call.answers.receipt.parsed.success)
      && (status == FAILED <==> call.answers.receipt.Receipt? && !call.answers.receipt.parsed.success)
      && (status == UNKNOWN <==> call.answers.receipt.NoReceipt?)
      && (status == PENDING <==> call.answers.receipt.LookupFailed?)
  }

  /** The signer is asked once, for this transaction, exactly when both addresses can be read and are one. */
  ghost predicate SendsOnce(cfg: Config, before: seq<Broadcast>, after: seq<Broadcast>, call: Call, tx: TransactionRequest, hash: Option<Hash>) {
    var from, own := cfg.codec.parse(tx.sender), cfg.codec.parse(cfg.signer);
    if from.Some? && own.Some? && from == own then
      && |after| == |before| + 1 && after[..|before|] == before
      && var b := after[|before|];
         b.key == call.request.idempotencyKey && b.executionId == call.request.executionId && b.tx == tx && b.hash == hash
    else after == before
  }

  /**
   * A prepared call with a new key stores one record that carries the call, with the status
   * and hash its outside answers call for, indexed under its key; and it answers with the
   * stored result, unless the receipt lookup of a broadcast failed.
   */
  lemma PreparedCallEndsAsAnswered(cfg: Config, s: State, call: Call)
    requires Stores(cfg, s, call)
    ensures var (s', r) := Execute(cfg, s, call); var q := call.request;
      && s'.store.keyIndex == s.store.keyIndex[q.idempotencyKey := q.executionId]
      && s'.store.records.Keys == s.store.records.Keys + {q.executionId}
      && (forall id :: id in s.store.records && id != q.executionId ==> s'.store.records[id] == s.store.records[id])
      && var stored := s'.store.records[q.executionId]; var result := stored.result;
         && stored.executionId == q.executionId && stored.idempotencyKey == q.idempotencyKey
         && stored.authorized == call.expectation && stored.verification.None?
         && result.executionId == q.executionId && result.chain == q.network && result.idempotencyKey == q.idempotencyKey
         && StatusFits(cfg, call, Prepare(cfg, call).value, result.status, result.transactionHash)
         && SendsOnce(cfg, s.sent, s'.sent, call, Prepare(cfg, call).value, result.transactionHash)
         && (if result.status == PENDING then r == Err(RPC_ERROR) else r == Ok(result))
  {
    var tx := Prepare(cfg, call).value;
    SubmissionEnds(cfg, s, call, tx, call.answers.simulation.value);
  }

  lemma SubmissionEnds(cfg: Config, s: State, call: Call, tx: TransactionRequest, simulated: Simulation)
    ensures var (s', r) := AfterSubmit(cfg, s, call, tx, simulated); var q := call.request;
      && s'.store.keyIndex == s.store.keyIndex[q.idempotencyKey := q.executionId] && q.executionId in s'.store.records
      && var stored := s'.store.records[q.executionId]; var result := stored.result;
         && s'.store.records == s.store.records[q.executionId := stored]
         && stored.executionId == q.executionId && stored.idempotencyKey == q.idempotencyKey
         && stored.authorized == call.expectation && stored.verification.None?
         && result.executionId == q.executionId && result.chain == q.network && result.idempotencyKey == q.idempotencyKey
         && StatusFits(cfg, call, tx, result.status, result.transactionHash)
         && SendsOnce(cfg, s.sent, s'.sent, call, tx, result.transactionHash)
         && (if result.status == PENDING then r == Err(RPC_ERROR) else r == Ok(result))
  {
  }

  // --------------------------------------------------------------------- broadcasts

  /**
   * The indexes never dangle; every broadcast key is indexed, under an id that is not empty
   * if the broadcast had one; and a key is broadcast again only after an empty id.
   */
  ghost predicate KeysOk(s: State) {
    && (forall k :: k in s.store.keyIndex ==> s.store.keyIndex[k] in s.store.records)
    && (forall i :: 0 <= i < |s.sent| ==> s.sent[i].key in s.store.keyIndex)
    && (forall i :: 0 <= i < |s.sent| && s.sent[i].executionId != "" ==> s.store.keyIndex[s.sent[i].key] != "")
    && (forall i, j :: 0 <= i < j < |s.sent| && s.sent[i].key == s.sent[j].key ==> s.sent[i].executionId == "")
  }

  ghost predicate Inv(cfg: Config, s: State) {
    KeysOk(s) && forall i :: 0 <= i < |s.sent| ==> Justified(cfg, s.sent[i])
  }

  /** The broadcast transaction was validated, and its payload passed simulation. */
  ghost predicate Justified(cfg: Config, b: Broadcast) {
    && Discrepancies(cfg.codec, cfg.registry, b.tx, b.expectation) == Ok([])
    && b.simulated == Simulation(true, cfg.payloadHash(b.tx))
  }

  /** The call gets past every check: its transaction is submitted and recorded. */
  predicate Stores(cfg: Config, s: State, call: Call) {
    ByKey(s.store, call.request.idempotencyKey).None? && Prepare(cfg, call).Ok?
  }

  predicate Broadcasts(cfg: Config, s: State, call: Call) {
    Stores(cfg, s, call) && SenderMatches(cfg, Prepare(cfg, call).value)
  }

  lemma PreparedIsJustified(cfg: Config, call: Call)
    requires Prepare(cfg, call).Ok?
    ensures Discrepancies(cfg.codec, cfg.registry, Prepare(cfg, call).value, call.expectation) == Ok([])
    ensures call.answers.simulation == Some(Simulation(true, cfg.payloadHash(Prepare(cfg, call).value)))
  {
  }

  /** What submitting does to the store is one put of a record of the call. */
  lemma SubmittedPuts(cfg: Config, s: State, call: Call, tx: TransactionRequest, simulated: Simulation) returns (r: Record)
    ensures AfterSubmit(cfg, s, call, tx, simulated).0.store == Put(s.store, r)
    ensures r.executionId == call.request.executionId && IsFor(r, call.request.idempotencyKey)
  {
    var s' := AfterSubmit(cfg, s, call, tx, simulated).0.store;
    r := s'.records[call.request.executionId];
    assert s'.records == s.store.records[call.request.executionId := r];
  }

  /** What it does to the history is at most one broadcast. */
  lemma SubmittedSends(cfg: Config, s: State, call: Call, tx: TransactionRequest, simulated: Simulation) returns (b: Broadcast)
    ensures AfterSubmit(cfg, s, call, tx, simulated).0.sent == s.sent + (if SenderMatches(cfg, tx) then [b] else [])
    ensures b.key == call.request.idempotencyKey && b.executionId == call.request.executionId
    ensures b.tx == tx && b.expectation == call.expectation && b.simulated == simulated
  {
    var submission := SubmissionOf(cfg, tx, call.answers.submit);
    b := Broadcast(call.request.idempotencyKey, call.request.executionId, tx, call.expectation, simulated,
                   if submission.Submitted? then Some(submission.hash) else None);
  }

  /** A call that gets that far puts one record and adds at most one broadcast; any other changes nothing. */
  lemma ExecuteSteps(cfg: Config, s: State, call: Call) returns (r: Record, b: Broadcast)
    requires Stores(cfg, s, call)
    ensures IsFor(r, call.request.idempotencyKey) && r.executionId == call.request.executionId
    ensures b.key == call.request.idempotencyKey && b.executionId == call.request.executionId
    ensures Justified(cfg, b) && Prepare(cfg, call) == Ok(b.tx) && call.answers.simulation == Some(b.simulated)
    ensures Execute(cfg, s, call).0 == State(Put(s.store, r), s.sent + (if Broadcasts(cfg, s, call) then [b] else []))
  {
    var tx, simulated := Prepare(cfg, call).value, call.answers.simulation.value;
    PreparedIsJustified(cfg, call);
    r := SubmittedPuts(cfg, s, call, tx, simulated);
    b := SubmittedSends(cfg, s, call, tx, simulated);
  }

  lemma ExecuteIdles(cfg: Config, s: State, call: Call)
    requires !Stores(cfg, s, call)
    ensures Execute(cfg, s, call).0 == s
  {
  }

  lemma PutKeepsKeys(s: State, r: Record, sent: seq<Broadcast>, b: Broadcast)
    requires KeysOk(s) && ByKey(s.store, r.idempotencyKey).None?
    requires b.key == r.idempotencyKey && b.executionId == r.executionId && (sent == s.sent || sent == s.sent + [b])
    ensures KeysOk(State(Put(s.store, r), sent))
  {
    forall i | 0 <= i < |s.sent| && s.sent[i].key == r.idempotencyKey ensures s.sent[i].executionId == "" {
      assert s.sent[i].key in s.store.keyIndex;
    }
  }

  lemma SentStayJustified(cfg: Config, sent: seq<Broadcast>, longer: seq<Broadcast>, b: Broadcast)
    requires forall i :: 0 <= i < |sent| ==> Justified(cfg, sent[i])
    requires Justified(cfg, b) && (longer == sent || longer == sent + [b])
    ensures forall i :: 0 <= i < |longer| ==> Justified(cfg, longer[i])
  {
  }

  lemma ExecuteKeepsInv(cfg: Config, s: State, call: Call)
    requires Inv(cfg, s)
    ensures Inv(cfg, Execute(cfg, s, call).0)
  {
    if Stores(cfg, s, call) {
      var r, b := ExecuteSteps(cfg, s, call);
      var sent := s.sent + (if Broadcasts(cfg, s, call) then [b] else []);
      assert sent == s.sent || sent == s.sent + [b];
      PutKeepsKeys(s, r, sent, b);
      SentStayJustified(cfg, s.sent, sent, b);
    } else {
      ExecuteIdles(cfg, s, call);
    }
  }

  lemma {:induction false} RunKeepsInv(cfg: Config, s: State, calls: seq<Call>)
    requires Inv(cfg, s)
    ensures Inv(cfg, Run(cfg, s, calls))
    decreases |calls|
  {
    if calls != [] {
      ExecuteKeepsInv(cfg, s, calls[0]);
      RunKeepsInv(cfg, Execute(cfg, s, calls[0]).0, calls[1..]);
    }
  }

  ghost predicate IdsGiven(sent: seq<Broadcast>) {
    forall i :: 0 <= i < |sent| ==> sent[i].executionId != ""
  }

  lemma SentIdIsGiven(cfg: Config, s: State, call: Call)
    requires call.request.executionId != "" && IdsGiven(s.sent)
    ensures IdsGiven(Execute(cfg, s, call).0.sent)
  {
    if Stores(cfg, s, call) {
      var _, _ := ExecuteSteps(cfg, s, call);
    } else {
      ExecuteIdles(cfg, s, call);
    }
  }

  lemma {:induction false} SentIdsAreGiven(cfg: Config, s: State, calls: seq<Call>)
    requires IdsGiven(s.sent) && forall i :: 0 <= i < |calls| ==> calls[i].request.executionId != ""
    ensures IdsGiven(Run(cfg, s, calls).sent)
    decreases |calls|
  {
    if calls != [] {
      SentIdIsGiven(cfg, s, calls[0]);
      SentIdsAreGiven(cfg, Execute(cfg, s, calls[0]).0, calls[1..]);
    }
  }

  /**
   * In every sequence of complete calls, whatever the outside answers: only a validated
   * payload that passed simulation is broadcast, and a key is broadcast again only after an
   * earlier broadcast for it with an empty execution id.
   */
  lemma {:induction false} BroadcastsAreJustified(cfg: Config, calls: seq<Call>)
    ensures var sent := Run(cfg, START, calls).sent;
      && (forall i, j :: 0 <= i < j < |sent| && sent[i].key == sent[j].key ==> sent[i].executionId == "")
      && (forall i :: 0 <= i < |sent| ==>
            Discrepancies(cfg.codec, cfg.registry, sent[i].tx, sent[i].expectation) == Ok([])
            && sent[i].simulated == Simulation(true, cfg.payloadHash(sent[i].tx)))
  {
    RunKeepsInv(cfg, START, calls);
    var sent := Run(cfg, START, calls).sent;
    assert forall i :: 0 <= i < |sent| ==> Justified(cfg, sent[i]);
  }

  /** With execution ids given, the signer is asked at most once per idempotency key, and only after a PASS simulation of that validated payload. */
  lemma {:induction false} AtMostOneBroadcastPerKey(cfg: Config, calls: seq<Call>)
    requires forall i :: 0 <= i < |calls| ==> calls[i].request.executionId != ""
    ensures var sent := Run(cfg, START, calls).sent;
      && (forall i, j :: 0 <= i < j < |sent| ==> sent[i].key != sent[j].key)
      && (forall i :: 0 <= i < |sent| ==>
            Discrepancies(cfg.codec, cfg.registry, sent[i].tx, sent[i].expectation) == Ok([])
            && sent[i].simulated == Simulation(true, cfg.payloadHash(sent[i].tx)))
  {
    BroadcastsAreJustified(cfg, calls);
    SentIdsAreGiven(cfg, START, calls);
  }

  /** A broadcast happens only in a call for a new key whose own simulation passed on that very payload. */
  lemma BroadcastNeedsPass(cfg: Config, s: State, call: Call)
    ensures var s' := Execute(cfg, s, call).0;
      s'.sent == s.sent || (
        && |s'.sent| == |s.sent| + 1 && s'.sent[..|s.sent|] == s.sent
        && ByKey(s.store, call.request.idempotencyKey).None?
        && Prepare(cfg, call) == Ok(s'.sent[|s.sent|].tx)
        && call.answers.simulation == Some(Simulation(true, cfg.payloadHash(s'.sent[|s.sent|].tx))))
  {
    if Stores(cfg, s, call) {
      var _, _ := ExecuteSteps(cfg, s, call);
    }
  }

  /** Once a key has been broadcast with an id, a later call with it changes nothing and answers from the store. */
  lemma {:induction false} LaterCallReturnsStoredRecord(cfg: Config, calls: seq<Call>, i: nat, call: Call)
    requires i < |Run(cfg, START, calls).sent| && Run(cfg, START, calls).sent[i].executionId != ""
    requires call.request.idempotencyKey == Run(cfg, START, calls).sent[i].key
    ensures var s := Run(cfg, START, calls);
      && ByKey(s.store, call.request.idempotencyKey).Some?
      && Execute(cfg, s, call) == (s, Ok(ByKey(s.store, call.request.idempotencyKey).value.result))
  {
    RunKeepsInv(cfg, START, calls);
  }

  /** With a lawful address codec the sender check never stops a prepared transaction. */
  lemma PreparedSenderMatches(cfg: Config, call: Call)
    requires LawfulCodec(cfg.codec) && Prepare(cfg, call).Ok?
    ensures SenderMatches(cfg, Prepare(cfg, call).value)
  {
  }

  /**
   * In any reachable state, a call for a key that was broadcast before broadcasts again if
   * and only if the key is indexed under the empty id and nothing stops the call.
   */
  lemma {:induction false} RebroadcastsIffIdIsEmpty(cfg: Config, calls: seq<Call>, i: nat, call: Call)
    requires i < |Run(cfg, START, calls).sent| && call.request.idempotencyKey == Run(cfg, START, calls).sent[i].key
    ensures var s := Run(cfg, START, calls); var key := call.request.idempotencyKey;
      && key in s.store.keyIndex
      && (|Execute(cfg, s, call).0.sent| > |s.sent| <==>
            s.store.keyIndex[key] == "" && Prepare(cfg, call).Ok? && SenderMatches(cfg, Prepare(cfg, call).value))
      && (LawfulCodec(cfg.codec) ==>
            (|Execute(cfg, s, call).0.sent| > |s.sent| <==> s.store.keyIndex[key] == "" && Prepare(cfg, call).Ok?))
  {
    RunKeepsInv(cfg, START, calls);
    var s := Run(cfg, START, calls);
    if LawfulCodec(cfg.codec) && Prepare(cfg, call).Ok? {
      PreparedSenderMatches(cfg, call);
    }
    if Stores(cfg, s, call) {
      var _, _ := ExecuteSteps(cfg, s, call);
    } else {
      ExecuteIdles(cfg, s, call);
    }
  }

  /** Two prepared calls for one new key broadcast twice if and only if the first one's execution id is empty. */
  lemma TwoCallsBroadcastTwiceIffIdIsEmpty(cfg: Config, s: State, a: Call, b: Call)
    requires a.request.idempotencyKey == b.request.idempotencyKey && Broadcasts(cfg, s, a)
    requires Prepare(cfg, b).Ok? && SenderMatches(cfg, Prepare(cfg, b).value)
    ensures |Execute(cfg, Execute(cfg, s, a).0, b).0.sent| == |s.sent| + (if a.request.executionId == "" then 2 else 1)
  {
    var r, _ := ExecuteSteps(cfg, s, a);
    var t := Execute(cfg, s, a).0;
    assert ByKey(t.store, r.idempotencyKey) == if r.executionId == "" then None else Some(r);
    if Stores(cfg, t, b) {
      var _, _ := ExecuteSteps(cfg, t, b);
    } else {
      ExecuteIdles(cfg, t, b);
    }
  }

  // ------------------------------------------------------------- whose record answers

  /** The record, and the result in it, are for that key. */
  predicate IsFor(r: Record, key: string) {
    r.idempotencyKey == key && r.result.idempotencyKey == key
  }

  /** Every key that is found answers with its own record. */
  ghost predicate OwnAnswers(s: Store) {
    forall k :: ByKey(s, k).Some? ==> IsFor(ByKey(s, k).value, k)
  }

  /** The id is given and another key is already indexed under it. */
  predicate IdIsTaken(s: Store, id: string, key: string) {
    id != "" && exists k :: k in s.keyIndex && k != key && s.keyIndex[k] == id
  }

  /** Storing the record of a new key keeps all answers own exactly when its id is not taken; a foreign answer stays for good. */
  lemma PutKeepsOwnAnswersIff(s: Store, r: Record)
    requires IsFor(r, r.idempotencyKey) && ByKey(s, r.idempotencyKey).None?
    ensures OwnAnswers(Put(s, r)) <==> OwnAnswers(s) && !IdIsTaken(s, r.executionId, r.idempotencyKey)
  {
    var s', key, id := Put(s, r), r.idempotencyKey, r.executionId;
    if k :| k in s.keyIndex && k != key && s.keyIndex[k] == id && id != "" {
      assert ByKey(s', k) == Some(r);
    }
    if k :| ByKey(s, k).Some? && !IsFor(ByKey(s, k).value, k) {
      assert k != key && ByKey(s', k).Some? && !IsFor(ByKey(s', k).value, k);
    }
    forall k | OwnAnswers(s) && !IdIsTaken(s, id, key) && ByKey(s', k).Some? ensures IsFor(ByKey(s', k).value, k) {
      if k != key {
        assert ByKey(s, k) == ByKey(s', k);
      }
    }
  }

  /** A call keeps all answers own exactly when it stores nothing or its id is not taken: a condition on the request and the store before it. */
  lemma CallKeepsOwnAnswersIff(cfg: Config, s: State, call: Call)
    ensures OwnAnswers(Execute(cfg, s, call).0.store) <==>
      OwnAnswers(s.store) && !(Stores(cfg, s, call) && IdIsTaken(s.store, call.request.executionId, call.request.idempotencyKey))
  {
    if Stores(cfg, s, call) {
      var r, _ := ExecuteSteps(cfg, s, call);
      PutKeepsOwnAnswersIff(s.store, r);
    } else {
      ExecuteIdles(cfg, s, call);
    }
  }

  /** The calls of a run that stored something, in order. */
  ghost function Stored(cfg: Config, s: State, calls: seq<Call>): seq<Call>
    decreases |calls|
  {
    if calls == [] then []
    else (if Stores(cfg, s, calls[0]) then [calls[0]] else []) + Stored(cfg, Execute(cfg, s, calls[0]).0, calls[1..])
  }

  predicate SameId(a: Call, b: Call) {
    a.request.executionId == b.request.executionId && a.request.executionId != ""
  }

  /** No execution id is used for two keys. */
  ghost predicate IdsFollowKeys(calls: seq<Call>) {
    forall i, j :: 0 <= i < |calls| && 0 <= j < |calls| && SameId(calls[i], calls[j]) ==>
      calls[i].request.idempotencyKey == calls[j].request.idempotencyKey
  }

  /** The index holds, for each key stored with an id, that id, and no other ids. */
  ghost predicate Traced(s: Store, done: seq<Call>) {
    && (forall k :: k in s.keyIndex ==> s.keyIndex[k] in s.records)
    && (forall k :: k in s.keyIndex && s.keyIndex[k] != "" ==> IsStored(done, k, s.keyIndex[k]))
    && (forall i :: 0 <= i < |done| && done[i].request.executionId != "" ==>
          var r := done[i].request; r.idempotencyKey in s.keyIndex && s.keyIndex[r.idempotencyKey] == r.executionId)
  }

  ghost predicate IsStored(done: seq<Call>, key: string, id: string) {
    exists i :: 0 <= i < |done| && done[i].request.idempotencyKey == key && done[i].request.executionId == id
  }

  lemma StoredIsTraced(s: Store, done: seq<Call>, call: Call, r: Record)
    requires Traced(s, done) && ByKey(s, call.request.idempotencyKey).None?
    requires r.executionId == call.request.executionId && r.idempotencyKey == call.request.idempotencyKey
    ensures Traced(Put(s, r), done + [call])
  {
    var s', all := Put(s, r), done + [call];
    forall k | k in s'.keyIndex && s'.keyIndex[k] != "" ensures IsStored(all, k, s'.keyIndex[k]) {
      if k == call.request.idempotencyKey {
        assert all[|done|] == call;
      } else {
        assert IsStored(done, k, s.keyIndex[k]);
        var i :| 0 <= i < |done| && done[i].request.idempotencyKey == k && done[i].request.executionId == s.keyIndex[k];
        assert all[i] == done[i];
      }
    }
    forall i | 0 <= i < |all| && all[i].request.executionId != ""
      ensures var q := all[i].request; q.idempotencyKey in s'.keyIndex && s'.keyIndex[q.idempotencyKey] == q.executionId
    {
      assert i < |done| ==> all[i] == done[i];
    }
  }

  /** One more stored call: its id is taken in the store exactly when an earlier stored call used it for another key. */
  lemma TakenMeansShared(s: Store, done: seq<Call>, call: Call)
    requires Traced(s, done)
    ensures IdsFollowKeys(done + [call]) <==>
      IdsFollowKeys(done) && !IdIsTaken(s, call.request.executionId, call.request.idempotencyKey)
  {
    var all, id, key := done + [call], call.request.executionId, call.request.idempotencyKey;
    assert all[|done|] == call && forall i :: 0 <= i < |done| ==> all[i] == done[i];
    if k :| id != "" && k in s.keyIndex && k != key && s.keyIndex[k] == id {
      assert IsStored(done, k, id);
      var i :| 0 <= i < |done| && done[i].request.idempotencyKey == k && done[i].request.executionId == id;
      assert SameId(all[i], all[|done|]);
    }
    if IdsFollowKeys(all) {
      forall i, j | 0 <= i < |done| && 0 <= j < |done| && SameId(done[i], done[j])
        ensures done[i].request.idempotencyKey == done[j].request.idempotencyKey
      {
        assert SameId(all[i], all[j]);
      }
    }
    if IdsFollowKeys(done) && !IdIsTaken(s, id, key) {
      forall i | 0 <= i < |done| && SameId(done[i], call) ensures done[i].request.idempotencyKey == key {
        assert done[i].request.idempotencyKey in s.keyIndex;
      }
    }
  }

  /** The store agrees with the calls that wrote it on what is indexed, and on whether all answers are own. */
  ghost predicate Explains(s: Store, done: seq<Call>) {
    Traced(s, done) && (OwnAnswers(s) <==> IdsFollowKeys(done))
  }

  lemma CallKeepsExplains(cfg: Config, s: State, call: Call, done: seq<Call>)
    requires Explains(s.store, done)
    ensures Explains(Execute(cfg, s, call).0.store, if Stores(cfg, s, call) then done + [call] else done)
  {
    CallKeepsOwnAnswersIff(cfg, s, call);
    if Stores(cfg, s, call) {
      var r, _ := ExecuteSteps(cfg, s, call);
      StoredIsTraced(s.store, done, call, r);
      TakenMeansShared(s.store, done, call);
    } else {
      ExecuteIdles(cfg, s, call);
    }
  }

  lemma {:induction false} RunIsExplained(cfg: Config, s: State, calls: seq<Call>, done: seq<Call>)
    requires Explains(s.store, done)
    ensures Explains(Run(cfg, s, calls).store, done + Stored(cfg, s, calls))
    decreases |calls|
  {
    if calls == [] {
      assert done + [] == done;
    } else if Stores(cfg, s, calls[0]) {
      CallKeepsExplains(cfg, s, calls[0], done);
      var rest := Stored(cfg, Execute(cfg, s, calls[0]).0, calls[1..]);
      RunIsExplained(cfg, Execute(cfg, s, calls[0]).0, calls[1..], done + [calls[0]]);
      Regroup(done, calls[0], rest);
    } else {
      ExecuteIdles(cfg, s, calls[0]);
      RunIsExplained(cfg, s, calls[1..], done);
      assert [] + Stored(cfg, s, calls[1..]) == Stored(cfg, s, calls[1..]);
    }
  }

  lemma Regroup(done: seq<Call>, call: Call, rest: seq<Call>)
    ensures done + ([call] + rest) == done + [call] + rest
  {
  }

  /**
   * After any sequence of calls, every key that is found answers with its own record if and
   * only if no execution id was used for two keys among the calls that stored something.
   */
  lemma {:induction false} RepliesAreOwnIffIdsFollowKeys(cfg: Config, calls: seq<Call>)
    ensures OwnAnswers(Run(cfg, START, calls).store) <==> IdsFollowKeys(Stored(cfg, START, calls))
  {
    RunIsExplained(cfg, START, calls, []);
    assert [] + Stored(cfg, START, calls) == Stored(cfg, START, calls);
  }

  /** Two prepared calls for different new keys with one id: the earlier key is answered with the later key's result. */
  lemma SharedIdAnswersForOtherKey(cfg: Config, s: State, a: Call, b: Call, again: Call)
    requires a.request.executionId == b.request.executionId != "" && a.request.idempotencyKey != b.request.idempotencyKey
    requires Stores(cfg, s, a) && Stores(cfg, Execute(cfg, s, a).0, b) && again.request.idempotencyKey == a.request.idempotencyKey
    ensures var t := Execute(cfg, Execute(cfg, s, a).0, b).0;
      Execute(cfg, t, again).0 == t && Execute(cfg, t, again).1.Ok?
      && Execute(cfg, t, again).1.value.idempotencyKey == b.request.idempotencyKey
  {
    var r, _ := ExecuteSteps(cfg, s, a);
    var q, _ := ExecuteSteps(cfg, Execute(cfg, s, a).0, b);
    assert ByKey(Put(Put(s.store, r), q), a.request.idempotencyKey) == Some(q);
  }

  // -------------------------------------------------------------- reading and re-verifying

  /** What stands against a verification of a recorded execution: the first of these that applies; else the receipt is compared with what was authorized. */
  lemma ReverifiesExactly(cfg: Config, s: Store, executionId: string, answer: ReceiptAnswer)
    ensures var r := Reverified(cfg, s, executionId, answer);
      && (executionId !in s.records ==> r == Err(UNKNOWN_ERROR))
      && (executionId in s.records ==>
            var rec := s.records[executionId]; var hash := rec.result.transactionHash;
            && (hash.None? || hash.value == "" ==> r == Err(VERIFICATION_FAILED))
            && (hash.Some? && hash.value != "" ==>
                  && (answer.LookupFailed? ==> r == Err(RPC_ERROR)) && (answer.NoReceipt? ==> r == Err(UNKNOWN_ERROR))
                  && (answer.Receipt? && Usdc(cfg.registry, rec.authorized.network).None? ==> r == Err(CONFIG_ERROR))
                  && (answer.Receipt? && Usdc(cfg.registry, rec.authorized.network).Some? && r.Ok? ==>
                        (r.value.verified <==>
                          && answer.parsed.success && rec.authorized.network == rec.result.chain
                          && var usdc := Usdc(cfg.registry, rec.authorized.network).value;
                             FirstCarries(answer.parsed.transfers, cfg.codec.parse(if usdc.address.Some? then usdc.address.value else ""),
                                          cfg.codec.parse(rec.authorized.recipient), M.ToBaseUnits(rec.authorized.amount, usdc.decimals).value)))))
  {
    if executionId in s.records && answer.Receipt? && Usdc(cfg.registry, s.records[executionId].authorized.network).Some? {
      ReceiptVerifiesExactly(cfg.codec, ReceiptOf(cfg.registry, s.records[executionId].authorized), answer.parsed, s.records[executionId].result.chain);
    }
  }

  /** A verification is stored with its execution, and nothing else changes. */
  lemma VerificationIsStored(s: Store, id: string, v: Verification)
    requires id in s.records
    ensures var s' := SetVerification(s, id, v);
      && s'.keyIndex == s.keyIndex && s'.records.Keys == s.records.Keys
      && s'.records[id].verification == Some(v) && s'.records[id] == s.records[id].(verification := Some(v))
      && forall k :: k in s.records && k != id ==> s'.records[k] == s.records[k]
  {
  }
}
