# Verification of the agent payment control plane

A Dafny model of the money path of a control plane for payment agents, and proofs about it.
A proposal by an agent becomes a payment through a chain of services: policies and a
decision engine say whether it may happen, final revalidation mints an execution request
backed by a budget reservation, an execution pipeline broadcasts and verifies a token
transfer, and executor answers commit or free the reservation. Logs with hash chains record
what happened.

`dafny verify dfyconfig.toml` checks everything.

## How it is modelled

- Values are datatypes, and what a service does to its rows is a function from one state to
  the next. The services themselves are classes whose methods make the reads, checks and writes
  of rows in the order of the code; each is proved to take exactly the step its function
  describes. Computations on values inside such a method (the policy facts of a decision, the
  admission of an event, the preparation of a call) are calls of the functions that define
  them. The theorems are about the functions and range over every input, every run or every
  interleaving.
- Money in the backend is an integer in a smallest unit; in the blockchain part it is the
  decimal string of the code and the integer it denotes. Reserved amounts are not negative:
  `reserve` does not check the sign, and a negative amount would break the limit
  (`Ledger.NegativeHoldBreaksLimit`, `Ledger.FreeKeepsLimitIffNotNegative`).
- Digests are function parameters. Where a theorem needs it, injectivity is a hypothesis, and
  the pre-images of the code are proved to keep what they hash apart. A digest that spells its
  value out meets all these hypotheses (`SpelledJson`, and the lemmas named
  `HashHypothesesAreConsistent`); so do the codec and order that others take as parameters. A
  JSON number is the text it is printed as.
- Clocks, row identifiers, rows read from elsewhere and the answers of networks, signers and
  execution clients are parameters.
- A service call is one atomic step, except in the modules that split it at its awaits
  (`LedgerConcurrency`, `Idempotency`, `RevalidationConcurrency`, `TrajectoryConcurrency`,
  `AuditConcurrency`, `PipelineConcurrency`). In these a statement sees what is committed, a
  unique index holds at every moment, and what a client read may be out of date when it writes.

| file | what it covers |
|---|---|
| ledger.dfy, ledger_concurrency.dfy, idempotency.dfy | budget accounts and reservations, interleaved clients, idempotent registration |
| execution_protocol.dfy, execution_answers.dfy, final_revalidation.dfy, revalidation_concurrency.dfy, services.dfy | minting, executor answers, what every call answers and writes, interleaved minting, and the services as methods over one database |
| transaction_gate.dfy, decision.dfy, approvals.dfy | proposal against transaction, the precedence ladder, human approvals |
| policy_rules.dfy, policy_engine.dfy, policy_meaning.dfy, policy_lifecycle.dfy, constitution_lifecycle.dfy, version_numbers.dfy | rules and evaluators, evaluation, what both mean for a payment, version lifecycles |
| capabilities.dfy | delegation and containment |
| trajectory.dfy, trajectory_concurrency.dfy, audit.dfy, audit_concurrency.dfy, trajectory_buffer.dfy, json_canonical.dfy, spelled_json.dfy | hash-chained logs, the canonical form they are hashed in, and a digest |
| decimal_strings.dfy, money.dfy, transactions.dfy, execution_pipeline.dfy, pipeline_concurrency.dfy | exact amounts, builder, validator, receipt verifier, ordered execution, calls in flight |
| evidence_graph.dfy | independent roots of a provenance graph |

## What the code does differently from what it says

- An UNKNOWN reservation is never committed later, although the comment at
  Backend/src/execution-gate/execution-result.service.ts:121-123 says so: finalization looks
  only for RESERVED, and commit refuses UNKNOWN
  (`ExecutionProtocol.ConfirmedUnknownIsNeverCommitted`). `ExecutionProtocol.StepMovesReservation`
  says of every call when it commits.
- A revalidation that names an approval is stale for every captured decision hash, because the
  fresh hash includes the captured one and no context contains its own hash. It is allowed if
  and only if neither the call nor the approval has a hash and every other check holds
  (`FinalRevalidation.ApprovedCallsAreStale`).
- Final revalidation evaluates the policy on the proposal alone, without category, trajectory,
  known recipients, earlier payments or totals. A category allow list, a required predecessor and
  an approval of new recipients then forbid every payment (`FinalRevalidation.HistoryRulesForbid`),
  and a cumulative limit bounds each payment alone
  (`FinalRevalidation.CumulativeLimitsSeeOnePayment`).
- Final revalidation reserves before it creates the request. When two calls for one payload race,
  the unique index keeps one request, and no later call frees the other call's reservation
  (`RevalidationConcurrency.TwoReservedOneLost`, `RevalidationConcurrency.OrphansAreForEver`).
- Redelivery of a trajectory event is refused as out of order; the branch that would return the
  stored row is dead (`Trajectory.DuplicateBranchIsDead`). A gap is counted as a duplicate too,
  since both share one message. In the audit log the second lookup is dead as well.
- The comment at Backend/src/trajectory/trajectory.service.ts:110-112 says that an append locks
  the trace row. It does not: the unique index on trace and sequence is what keeps every chain
  whole (`TrajectoryConcurrency.EveryTraceVerifiesInterleaved`). It does not keep an append from
  being stored on a trace completed since it was read; a commit is an append of the sequential
  specification if and only if the trace is still active
  (`TrajectoryConcurrency.MoveRefinesTrajectory`, `AppendCanFollowCompletion`).
- An audit append reads the head of its chain without a lock, and only the event hash is unique.
  Racing appends can fork a chain or store a redelivered event twice
  (`AuditConcurrency.TwoAppendsCanFork`, `RetryCanBeStoredTwice`), and since the chain is read in
  order of creation time, a row whose time is before that of another breaks it as well
  (`AuditConcurrency.BackdatedAppendBreaks`). A chain verifies if and only if no append to it was
  overtaken and none backdated (`AuditConcurrency.ChainVerifiesIffUndisturbed`).
- The comment at Backend/src/audit/audit.service.ts:30-35 says that an append with a known event
  key returns the stored row, and that without a key each append is distinct. The key is only
  one part of the fingerprint: an append adds a row if and only if no earlier input agrees with
  it in everything, absent keys included (`Audit.AppendAddsIffNew`).
- A bucket key without a network can get two accounts when clients race
  (`LedgerConcurrency.BucketCanSplitIffNoNetwork`). Final revalidation always names one.
- Canonicalization drops fields named `__proto__` (`JsonCanonical.CanonFaithfulIffNoProto`).
- A payment can be broadcast twice for one idempotency key. With calls one after the other, a
  record stored with an empty execution id is not found by its key, and this is the only way
  (`ExecutionPipeline.RebroadcastsIffIdIsEmpty`, `TwoCallsBroadcastTwiceIffIdIsEmpty`). The
  contract schema asks for an id of at least one character
  (Blockchain/src/contracts/execution-contracts.ts:13 and :144), but `execute` does not parse
  its request with it. With calls in flight together and ids given, it happens if and only if
  one passes the lookup before another that passed it has recorded
  (`PipelineConcurrency.BroadcastTwiceIffOverlap`).
- A key can be answered with the record of another key. This happens if and only if one
  execution id was used for two keys among the calls that stored something, which the index
  shows before each call (`ExecutionPipeline.RepliesAreOwnIffIdsFollowKeys`,
  `CallKeepsOwnAnswersIff`, `SharedIdAnswersForOtherKey`).
- A child can outlive a revoked parent, although the comment at
  Backend/src/domain/capabilities/capability.service.ts:303 says that it cannot: revocation
  stops at direct children, so a grandchild stays active under the revoked child
  (`Capabilities.GrandchildOutlivesRevokedParent`). A revocation keeps the promise if and only
  if there is no active grandchild, and along whole lineages if and only if nothing active lies
  deeper than a child (`Capabilities.RevokeKeepsPromiseIffNoGrandchild`,
  `RevokeKeepsLineagesIffNoneDeep`).
- A time window from an hour to itself is empty, not the whole day.
- The validator compares the token contract only when the transaction target is a well-formed
  address; `Transactions.CheckPassesExactly` states the exact condition.

## Model

| member | source | states |
|---|---|---|
| `Ledger.TotalsAgreeInEveryRun` | Backend/src/domain/financial/financial.service.ts:85-274 | In every sequence of operations on any number of accounts, the cached reserved total is the sum of the RESERVED and UNKNOWN reservations, the committed total the sum of the COMMITTED ones, and together they stay within a non-null limit. |
| `Ledger.RunKeepsInv` | Backend/src/domain/financial/financial.service.ts:40-274 | The same facts, with one account per bucket key and reservations that point at accounts, are kept by every sequence of operations from any state that has them. |
| `Ledger.ReserveAcceptedIffItFits` | Backend/src/domain/financial/financial.service.ts:85-142 | A reservation is accepted exactly when the amount fits next to the sum of everything held or spent on its bucket; a refusal is POLICY_VIOLATION and changes nothing. |
| `Ledger.StepFollowsLifecycle` | Backend/src/domain/financial/financial.service.ts:149-274 | One operation moves a reservation only along the lifecycle, and only a reconciling release takes it out of UNKNOWN. |
| `Ledger.RunFollowsLifecycle` | Backend/src/domain/financial/financial.service.ts:149-274 | Over a whole run a stored reservation keeps owner, account and amount, and its status goes RESERVED to COMMITTED, RELEASED or UNKNOWN, and UNKNOWN to RELEASED, only. |
| `Ledger.UnknownHoldSurvives` | Backend/src/domain/financial/financial.service.ts:257-274 | An UNKNOWN reservation stays as it is, and its amount stays in the account total, in every run that does not reconcile it. |
| `Ledger.ReleaseUndoesReserve` | Backend/src/domain/financial/financial.service.ts:85-224 | Releasing a fresh reservation gives back exactly the accounts there were before it, with the one it had to create if its bucket was new. |
| `Ledger.SettlementsAreIdempotent` | Backend/src/domain/financial/financial.service.ts:145-274 | A commit, release, reconciling release or mark that succeeded succeeds again and changes nothing. |
| `Ledger.CommitMovesHeldToSpent` | Backend/src/domain/financial/financial.service.ts:149-182 | A commit moves exactly the reservation amount from held to spent on its own account and moves nothing elsewhere. |
| `Ledger.EnsureKeepsInv` | Backend/src/domain/financial/financial.service.ts:44-77 | Ensuring an account returns one with the asked key, keeps all invariants and touches no reservation. |
| `Ledger.EnsureMeaning` | Backend/src/domain/financial/financial.service.ts:44-77 | A known bucket key gives its account and changes nothing; a new one gives a new account with that key, agent and limit and zero totals. |
| `Ledger.LimitsNeverChange` | Backend/src/domain/financial/financial.service.ts:40-274 | Over every run key, agent and limit of an account stay. |
| `Ledger.FirstReserveObeysLimit` | Backend/src/domain/financial/financial.service.ts:44-142 | The first reservation on a fresh account is accepted if and only if it is no larger than the limit the account was made with. |
| `Ledger.ReserveStores` | Backend/src/domain/financial/financial.service.ts:85-142 | An accepted reservation stores one RESERVED row with the company, agent, request, amount and asset of the call, on the account of its bucket, and holds its amount there and nowhere else. |
| `Ledger.SettlementAnswers` | Backend/src/domain/financial/financial.service.ts:145-274 | A settlement by another company or of no reservation is NOT_FOUND, in a status it does not apply to a CONFLICT, both without any change; any other puts the one reservation in its target status. |
| `Ledger.SettlementMovesMoney` | Backend/src/domain/financial/financial.service.ts:145-274 | A settlement gives the amount back from held, adds it to spent if it is a commit, moves nothing if it is a mark, and touches no other account. |
| `Ledger.NegativeHoldBreaksLimit` | Backend/src/domain/financial/financial.service.ts:85-224 | For every limit and negative amount, holding it, filling the account and freeing it passes every check and leaves the account over its limit. |
| `Ledger.FreeKeepsLimitIffNotNegative` | Backend/src/domain/financial/financial.service.ts:189-224 | Freeing an amount keeps every account that is within its limit there if and only if the amount is not negative. |
| `LedgerConcurrency.EventRefinesLedger` | Backend/src/domain/financial/financial.service.ts:85-142 | With reserve split at its awaits and any number of clients interleaved, every event is, on the committed view, one atomic ledger operation or nothing; at the write the amount still fits the committed view. |
| `LedgerConcurrency.ApplyKeepsInv` | Backend/src/domain/financial/financial.service.ts:88-142 | No event of another client changes a row between the locked read and the update that is computed from it. |
| `LedgerConcurrency.RunIsSound` | Backend/src/domain/financial/financial.service.ts:44-142 | Every interleaving, stopped anywhere, leaves a committed view whose totals are the sums and within the limits. |
| `LedgerConcurrency.InterleavingsKeepLimitAndSums` | Backend/src/domain/financial/financial.service.ts:85-142 | In every interleaving no row as written exceeds its limit, and an unlocked row equals the sums over its reservations. |
| `LedgerConcurrency.BucketCanSplitIffNoNetwork` | Backend/src/domain/financial/financial.service.ts:44-77 | Racing creations can leave two accounts for one bucket key if and only if the key names no network, because the unique index does not compare nulls. |
| `LedgerConcurrency.AloneIsReserve` | Backend/src/domain/financial/financial.service.ts:85-142 | The events of a client that nothing interrupts add up to one whole reservation, and it is answered as that. |
| `Idempotency.RegisterIsNewAtMostOnce` | Backend/src/domain/financial/idempotency.service.ts:51-105 | With register split at find, insert and re-read and any interleaving, NEW is answered at most once ever per company, operation and key, REPLAY only after it and for an equal request hash, and no call is left without a record. |
| `Idempotency.ApplyKeepsInv` | Backend/src/domain/financial/idempotency.service.ts:51-121 | Each event, the progress updates included, keeps every answer given so far consistent with the stored record of its key. |
| `Idempotency.RegisterAnswers` | Backend/src/domain/financial/idempotency.service.ts:51-105 | A new key is stored IN_PROGRESS with its hash and answered NEW; a stored one stays and is answered REPLAY exactly for an equal hash, else IDEMPOTENCY_CONFLICT. |
| `Idempotency.AloneIsRegister` | Backend/src/domain/financial/idempotency.service.ts:51-105 | The events of a call that nothing interrupts add up to one whole registration and its answer. |
| `Idempotency.LoserIsAnsweredByWinner` | Backend/src/domain/financial/idempotency.service.ts:87-105 | A call whose insert meets the unique index is answered by the record that won. |
| `Services.FinancialService.EnsureAccount` | Backend/src/domain/financial/financial.service.ts:44-77 | The method takes exactly the ledger step of the same name. |
| `Services.FinancialService.Reserve` | Backend/src/domain/financial/financial.service.ts:85-142 | The method that locks, checks, inserts and updates takes exactly the atomic ledger step, refusals included. |
| `Services.FinancialService.Commit` | Backend/src/domain/financial/financial.service.ts:149-182 | The method takes exactly the ledger step, with each of its four refusals. |
| `Services.FinancialService.Release` | Backend/src/domain/financial/financial.service.ts:189-224 | The method takes exactly the ledger step; an UNKNOWN reservation is refused. |
| `Services.FinancialService.ReconcileRelease` | Backend/src/domain/financial/financial.service.ts:232-255 | The method takes exactly the ledger step that may free an UNKNOWN hold. |
| `Services.FinancialService.MarkUnknown` | Backend/src/domain/financial/financial.service.ts:262-274 | The method takes exactly the ledger step; no total changes. |
| `Services.IdempotencyService.Register` | Backend/src/domain/financial/idempotency.service.ts:51-105 | The method answers NEW, REPLAY or IDEMPOTENCY_CONFLICT and stores a record exactly as the table operation that the interleaving theorem is about. |
| `Services.ExecutionResultService.IngestResult` | Backend/src/execution-gate/execution-result.service.ts:68-117 | The method takes exactly the protocol step for an executor result. |
| `Services.ExecutionResultService.Reconcile` | Backend/src/execution-gate/execution-result.service.ts:124-149 | The method takes exactly the protocol step for a reconciliation answer. |
| `Services.ExecutionResultService.CompareReceipts` | Backend/src/execution-gate/execution-result.service.ts:176-184 | Discrepancies are listed field by field, and none are found exactly when authorized and actual receipts are equal and the client verified. |
| `Services.ExecutionResultService.VerifyAndFinalize` | Backend/src/execution-gate/execution-result.service.ts:156-212 | The method takes exactly the protocol step: it records the verification and commits the bound RESERVED reservation if there is no discrepancy. |
| `Services.ExecutionResultService.FindBound` | Backend/src/execution-gate/execution-result.service.ts:202-204 | The lookup by request and status returns the one reservation the protocol step is about. |
| `Services.FinalRevalidationService.DecideNow` | Backend/src/execution-gate/final-revalidation.service.ts:123-248 | The assembly of the decision input from the rows read at this moment, and the decision on it, are those of the decision function. |
| `Services.FinalRevalidationService.Revalidate` | Backend/src/execution-gate/final-revalidation.service.ts:123-332 | The method - decide, register, look for a request, reserve, create, bind - takes exactly the protocol step and keeps its invariant. |
| `ExecutionProtocol.RequestsAreUniqueAndBacked` | Backend/src/execution-gate/final-revalidation.service.ts:254-323 | Over any sequence of calls there is at most one execution request per company and payload hash, and exactly one reservation is bound to each, of the same company. |
| `ExecutionProtocol.CommittedOnlyWhenVerified` | Backend/src/execution-gate/execution-result.service.ts:176-211 | Whatever the execution client answers, a COMMITTED reservation has a stored verification of its request with no discrepancy and equal authorized and actual receipts. |
| `ExecutionProtocol.BudgetHoldsInEveryRun` | Backend/src/domain/financial/financial.service.ts:85-274 | Totals equal sums and limits hold in every sequence of revalidations and executor answers. |
| `ExecutionProtocol.StepMovesReservation` | Backend/src/execution-gate/execution-result.service.ts:68-226 | For every call and every request: the status of its reservation after the call is the one fixed by the call and the status before, and nothing else of the reservation changes. |
| `ExecutionProtocol.ReservationsFollowLifecycle` | Backend/src/execution-gate/execution-result.service.ts:68-226 | In every run the reservation of a request stays bound to it and only moves along the lifecycle. |
| `ExecutionProtocol.UnknownIsFreedByReconcileOnly` | Backend/src/execution-gate/execution-result.service.ts:119-149 | An UNKNOWN hold, and its budget, survive every run without a reconcile of its request that was answered FAILED. |
| `ExecutionProtocol.ConfirmedUnknownIsNeverCommitted` | Backend/src/execution-gate/execution-result.service.ts:68-212 | For every RESERVED request: reported UNKNOWN, reconciled as CONFIRMED and verified with equal receipts, it ends CONFIRMED with its proof stored and its reservation UNKNOWN, and no continuation commits the money. |
| `ExecutionProtocol.MintsExactlyWhenAllowed` | Backend/src/execution-gate/final-revalidation.service.ts:248-331 | A request is added if and only if the freshly derived decision is ALLOW, the key is free for this body and the amount fits; then one bound reservation of that amount is added in that bucket. Every other call leaves requests and ledger alone. |
| `ExecutionProtocol.ReplayReturnsTheRequest` | Backend/src/execution-gate/final-revalidation.service.ts:254-280 | A later call with the same payload and body returns the request minted first and changes nothing. |
| `ExecutionAnswers.NotAllowedIsHandedOn` | Backend/src/execution-gate/final-revalidation.service.ts:248-252 | A fresh decision other than ALLOW is answered with that verdict and determinant and no request, and nothing is touched. |
| `ExecutionAnswers.OtherBodyConflicts` | Backend/src/execution-gate/final-revalidation.service.ts:254-267 | An allowed call whose key was registered by another body answers IDEMPOTENCY_CONFLICT and touches nothing. |
| `ExecutionAnswers.KnownRequestIsAnswered` | Backend/src/execution-gate/final-revalidation.service.ts:269-280 | An allowed call whose request exists answers with it and touches nothing. |
| `ExecutionAnswers.OverBudgetIsDenied` | Backend/src/execution-gate/final-revalidation.service.ts:283-302 | An allowed call with a free key whose amount does not fit answers DENY for its budget; all it leaves is the registration. |
| `ExecutionAnswers.AllowIsAnsweredIffRequestExists` | Backend/src/execution-gate/final-revalidation.service.ts:248-331 | Every call fails exactly when it is allowed and its key belongs to another body, and otherwise answers ALLOW if and only if it is allowed and its request exists afterwards. |
| `ExecutionAnswers.MintedRequestCarriesTheCall` | Backend/src/execution-gate/final-revalidation.service.ts:254-323 | A minted request carries company, agent, decision, transaction, policy version, network, key, context hash and time of its call, its registration the hash of its body, and its reservation amount and bucket. |
| `ExecutionAnswers.ContextIsOfTheCall` | Backend/src/execution-gate/final-revalidation.service.ts:193-213 | The hashed context is of this call: intent, proposal, policy, version, evaluation, assessment, transaction, payload, simulation and approval. |
| `ExecutionAnswers.PoliciesSeeTheProposal` | Backend/src/execution-gate/final-revalidation.service.ts:160-177 | Policies are evaluated on the action, amount, currency, network and recipient of the proposal at this time, with no category and no history. |
| `ExecutionAnswers.StepMovesRequest` | Backend/src/execution-gate/execution-result.service.ts:68-149 | Every call keeps every request; an accepted result gives its request the status of the result, a reconciliation CONFIRMED or FAILED, and no other call changes a status. |
| `ExecutionAnswers.StepAddsResult` | Backend/src/execution-gate/execution-result.service.ts:90-105 | An accepted result adds the one row with its request, status, chain and transaction hash; no other call adds one. |
| `ExecutionAnswers.StepAddsVerification` | Backend/src/execution-gate/execution-result.service.ts:186-200 | Exactly a verification of a known request adds one verification row. |
| `ExecutionAnswers.IngestAnswers` | Backend/src/execution-gate/execution-result.service.ts:68-117 | A result that is not authenticated, not of a request of the company, or on another network is refused with its own error and changes nothing; any other is answered with its row. |
| `ExecutionAnswers.ReconcileAnswers` | Backend/src/execution-gate/execution-result.service.ts:124-149 | The answer names what the executor said; without a final word nothing changes. |
| `ExecutionAnswers.VerifyAnswers` | Backend/src/execution-gate/execution-result.service.ts:156-212 | The stored verification says what was compared and names exactly what differs, each once, and the call answers committed if and only if the reservation was RESERVED and is COMMITTED now. |
| `ExecutionAnswers.VerifyRefuses` | Backend/src/execution-gate/execution-result.service.ts:156-170 | A verification of a request the company does not have is refused and changes nothing. |
| `ExecutionProtocol.RunKeepsInv` | Backend/src/execution-gate/final-revalidation.service.ts:254-331 | Ledger invariant, request uniqueness, registration, binding and verified spending are kept by every sequence of calls. |
| `ExecutionProtocol.ReserveMakesOne` | Backend/src/domain/financial/financial.service.ts:85-142 | A successful reserve adds one unbound RESERVED reservation of the amount in the bucket, and succeeds exactly when it fits. |
| `ExecutionProtocol.BindKeepsLedger` | Backend/src/execution-gate/final-revalidation.service.ts:319-323 | Binding a reservation to a request moves no money. |
| `ExecutionProtocol.SettleBoundEffect` | Backend/src/execution-gate/execution-result.service.ts:141-226 | Settling by request changes the status of its own bound reservation only, and only from the statuses looked for. |
| `FinalRevalidation.AllowMeans` | Backend/src/execution-gate/final-revalidation.service.ts:126-252 | The fresh decision is ALLOW if and only if authority holds, no enabled rule of the active version objects or asks for a human, the transaction is the proposal, the simulation is of this payload and did not fail, nothing is stale, a named approval is approved for this context, and the advice is benign. |
| `FinalRevalidation.AllowedPaymentMeetsEveryRule` | Backend/src/execution-gate/final-revalidation.service.ts:147-252 | An ALLOW implies that the amount of the proposal is within every enabled maximum, that its recipient, asset and network are where the enabled lists want them, that it is inside every time window, and that no enabled rule wants a human. |
| `FinalRevalidation.HistoryRulesForbid` | Backend/src/execution-gate/final-revalidation.service.ts:160-177 | Because the context has no category, history or known recipients, no call is ever allowed under an enabled rule that needs one. |
| `FinalRevalidation.CumulativeLimitsSeeOnePayment` | Backend/src/execution-gate/final-revalidation.service.ts:160-177 | A cumulative limit is violated at revalidation exactly when the one amount exceeds it. |
| `FinalRevalidation.EveryRequestWasAllowed` | Backend/src/execution-gate/final-revalidation.service.ts:248-317 | Every request of every run was minted by a revalidation whose fresh decision was ALLOW, and still carries the terms of that call. |
| `FinalRevalidation.RequestsKeepTheirTerms` | Backend/src/execution-gate/execution-result.service.ts:101-105 | No call ever changes anything but the status of an existing request. |
| `FinalRevalidation.AllowMeansNothingChanged` | Backend/src/execution-gate/final-revalidation.service.ts:193-231 | With digests that separate inputs, an ALLOW means the captured decision context and the simulated payload equal the present ones in every field. |
| `FinalRevalidation.ApprovedCallsAreStale` | Backend/src/execution-gate/final-revalidation.service.ts:201-231 | The fresh hash contains the captured hash when an approval is named, so such a call is ALLOW if and only if it captured no hash, the approval is approved on no hash, and every other check holds; any captured hash makes it stale. |
| `FinalRevalidation.HashHypothesesAreConsistent` | Backend/src/decision/engine.ts:205-218 | Over one digest the context and payload hashes of the code separate their inputs, and no context contains its own hash: the hypotheses of the theorems above can be met together. |
| `FinalRevalidation.CodeHashesSeparate` | Backend/src/execution-gate/transaction-gate.ts:155-173 | With an injective digest the payload and context hashes of the code separate their inputs. |
| `RevalidationConcurrency.InterleavedRequestsStayUnique` | Backend/src/execution-gate/final-revalidation.service.ts:254-331 | With everything after the decision split at its awaits and any interleaving of clients, crashes and executor answers: one request per company and key, at most one reservation for each, totals equal to sums and within limits, and spent money only with a verified record. |
| `RevalidationConcurrency.ApplyKeepsInv` | Backend/src/execution-gate/final-revalidation.service.ts:254-323 | Every event of every client keeps the reservation a client is about to bind unbound, and the request it is about to bind unbacked. |
| `RevalidationConcurrency.SettledRequestsAreBacked` | Backend/src/execution-gate/final-revalidation.service.ts:303-323 | Without crashes every request has its reservation as soon as no client is between create and bind. |
| `RevalidationConcurrency.HoldsAreLostExactlyWhenDropped` | Backend/src/execution-gate/final-revalidation.service.ts:283-323 | A reservation is left without request and owner exactly when its client loses the race to create the request or crashes before it bound it. |
| `RevalidationConcurrency.OrphansAreForEver` | Backend/src/execution-gate/execution-result.service.ts:202-226 | Such a reservation stays RESERVED and keeps its budget in every continuation, whatever the executor answers. |
| `RevalidationConcurrency.TwoReservedOneLost` | Backend/src/execution-gate/final-revalidation.service.ts:270-317 | Whenever two clients have reserved for one key, the second to create its request loses its hold. |
| `RevalidationConcurrency.RaceCanLoseAHold` | Backend/src/execution-gate/final-revalidation.service.ts:254-317 | For every plan there is an interleaving of two clients without crashes that loses a hold. |
| `RevalidationConcurrency.AloneIsProceed` | Backend/src/execution-gate/final-revalidation.service.ts:254-331 | The events of a client that nothing interrupts add up to what an allowed call does in one step. |
| `TransactionGate.CompareProposalVsTransaction` | Backend/src/execution-gate/transaction-gate.ts:92-148 | The report holds exactly the fields in which the transaction departs from the proposal, each once, and is empty exactly on a match. |
| `TransactionGate.MatchMeans` | Backend/src/execution-gate/transaction-gate.ts:92-148 | A match means: the recipient named by address, else by identifier, amount, currency and network are those of the transaction, its analysis is VALID, and a simple payment calls a paying function and raises no flag. |
| `TransactionGate.PayloadNamesItsParts` | Backend/src/execution-gate/transaction-gate.ts:155-173 | The payload takes each part from where the code takes it. |
| `TransactionGate.SimulationMeans` | Backend/src/execution-gate/transaction-gate.ts:218-234 | PASS goes on, REVERT and INSUFFICIENT_FUNDS reject, UNEXPECTED_STATE_CHANGE flags, ERROR and UNSUPPORTED fail closed. |
| `TransactionGate.BindingSaysWhy` | Backend/src/execution-gate/transaction-gate.ts:187-210 | A simulation of another transaction is WRONG_TRANSACTION, one of another payload STALE, and only the rest are bound. |
| `TransactionGate.PayloadHashSeparates` | Backend/src/execution-gate/transaction-gate.ts:155-173 | Two payloads have one hash exactly when they are equal in all seven fields. |
| `TransactionGate.BoundSimulationIsOfThisPayload` | Backend/src/execution-gate/transaction-gate.ts:187-210 | A simulation is accepted as bound exactly when it was recorded for this transaction and this payload. |
| `DecisionEngine.DecideIsStrictestVote` | Backend/src/decision/engine.ts:103-199 | The verdict of the ladder is the strictest of nine votes that each look at one signal; the order only picks the reason. |
| `DecisionEngine.FirstReasonDecides` | Backend/src/decision/engine.ts:103-199 | Verdict and determinant are those of the first of the listed reasons that applies. |
| `DecisionEngine.ApprovalStateMeans` | Backend/src/approval/approval.service.ts:213-232 | What the engine is told of an approval, for every status, time and hash. |
| `DecisionEngine.AdviceNeverAuthorizes` | Backend/src/decision/engine.ts:184-188 | AI advice never makes a verdict milder and never changes a DENY. |
| `DecisionEngine.HardFailureIsFinal` | Backend/src/decision/engine.ts:106-155 | A hard failure decides verdict and reason alone, whatever approval and advice say. |
| `DecisionEngine.ContextHashSeparates` | Backend/src/decision/engine.ts:205-218 | Equal contexts and only those share a context hash (injective digest). |
| `Approvals.DecisionsAreFinal` | Backend/src/approval/approval.service.ts:245-249 | A request that left PENDING never changes again. |
| `Approvals.ApprovedMeansSomeoneApproved` | Backend/src/approval/approval.service.ts:134-232 | When the state fed to the decision engine is APPROVED, exactly one result exists for the request: an approval by an authorized approver of the company on the context hash now presented. |
| `Approvals.StepDecidesOnce` | Backend/src/approval/approval.service.ts:134-210 | Every operation leaves decided requests as they are and changes nothing but the status of the others. |
| `Approvals.WhoMayDecide` | Backend/src/approval/approval.service.ts:82-100 | Someone of the company with one of three roles, and with the role asked for unless an administrator. |
| `Approvals.ApprovesExactly` | Backend/src/approval/approval.service.ts:134-167 | An approval is recorded exactly for an open request of the company, by someone who may decide, on its own context hash; each error says which of these fails, and changes nothing. |
| `Approvals.DeniesExactly` | Backend/src/approval/approval.service.ts:170-195 | The same for a denial, on whatever context, with the hash of the request. |
| `Approvals.CancelsExactly` | Backend/src/approval/approval.service.ts:198-201 | The same for a cancellation, which needs no approver and leaves an EXPIRED mark when the time has passed. |
| `Approvals.CreatesPending` | Backend/src/approval/approval.service.ts:62-75 | A new request is PENDING with the role, time and hash it was asked for. |
| `Approvals.ExpiresExactly` | Backend/src/approval/approval.service.ts:204-210 | An expiry run marks exactly the lapsed requests of the company. |
| `Approvals.ApprovalService.ApproveRequest` | Backend/src/approval/approval.service.ts:134-167 | The method takes exactly the specified step; every throw, the expired one included, leaves no write behind. |
| `Approvals.ApprovalService.DenyRequest` | Backend/src/approval/approval.service.ts:170-195 | The method takes exactly the specified step. |
| `Approvals.ApprovalService.CancelRequest` | Backend/src/approval/approval.service.ts:198-201 | The method takes exactly the specified step; outside a transaction an expired request is marked before the call throws. |
| `Approvals.ApprovalService.MarkExpired` | Backend/src/approval/approval.service.ts:204-210 | Exactly the pending requests of the company whose time has passed become EXPIRED. |
| `Trajectory.EveryTraceVerifies` | Backend/src/trajectory/trajectory.service.ts:84-248 | After any sequence of creations, appends (accepted or refused) and completions every trace passes verification, its head is its event count and its head hash the last hash. |
| `Trajectory.SameHeadSameChain` | Backend/src/trajectory/trajectory.service.ts:64-82 | With a digest that separates events and never hits genesis, two verified chains with the same head hash agree in length and in every hashed field. |
| `Trajectory.DuplicateBranchIsDead` | Backend/src/trajectory/trajectory.service.ts:172-174 | The lookup by an already stored hash never finds anything. |
| `Trajectory.AppendAddsOneOrNothing` | Backend/src/trajectory/trajectory.service.ts:114-201 | An append stores exactly one event with the given sequence at the end, or changes nothing. |
| `Trajectory.AdmissionSaysWhy` | Backend/src/trajectory/trajectory.service.ts:114-160 | An event is refused for the first of six reasons that applies: trace, agent, status, sequence, previous hash, time stamp. |
| `Trajectory.AppendAnswers` | Backend/src/trajectory/trajectory.service.ts:114-201 | An admitted event is refused only if its hash is not the computed one; otherwise the stored row has the content of the input, linked to the head, and the head moves to it. |
| `Trajectory.CreateAnswers` | Backend/src/trajectory/trajectory.service.ts:84-103 | A trace starts ACTIVE and empty, for a known agent. |
| `Trajectory.CompleteAnswers` | Backend/src/trajectory/trajectory.service.ts:251-260 | Completion is of the own company and changes the status alone. |
| `Trajectory.MessageCountsAs` | Backend/src/trajectory/ingestion.worker.ts:155-190 | A message counts as processed if its event is stored, as a duplicate if it is out of order, and as rejected otherwise. |
| `Trajectory.RedeliveryChangesNothing` | Backend/src/trajectory/ingestion.worker.ts:155-190 | Redelivering an appended event through the worker changes nothing and is refused as out of order, never answered with the old row. |
| `Trajectory.BatchIsAccountedFor` | Backend/src/trajectory/ingestion.worker.ts:104-190 | Each message of a batch is counted once, and the processed count is exactly the number of events added. |
| `Trajectory.EventHashIsFaithful` | Backend/src/trajectory/trajectory.service.ts:64-82 | With an injective digest the event hash of the code separates all hashed fields, null provenance counting as empty. |
| `Trajectory.HashHypothesesAreConsistent` | Backend/src/trajectory/trajectory.service.ts:64-82 | Some digest makes the event hash of the code faithful and keeps it off the starting hash. |
| `Trajectory.TrajectoryService.Create` | Backend/src/trajectory/trajectory.service.ts:84-103 | The method takes exactly the creation step. |
| `Trajectory.TrajectoryService.AppendEvent` | Backend/src/trajectory/trajectory.service.ts:114-201 | The method takes exactly the append step, with its refusals in order. |
| `Trajectory.TrajectoryService.Complete` | Backend/src/trajectory/trajectory.service.ts:251-260 | The method takes exactly the completion step; events stay. |
| `Trajectory.TrajectoryService.VerifyChain` | Backend/src/trajectory/trajectory.service.ts:227-248 | The loop answers true exactly when sequence, link and hash hold at every event. |
| `TrajectoryConcurrency.EveryTraceVerifiesInterleaved` | Backend/src/trajectory/trajectory.service.ts:114-201 | With append split at its awaits and any interleaving of creations, completions, appends and rollbacks, stopped anywhere, every trace verifies, its head is its event count and its head hash the last hash. |
| `TrajectoryConcurrency.ApplyKeepsInv` | Backend/src/trajectory/trajectory.service.ts:114-201 | Every move keeps each written and uncommitted row the next one of its trace, free of collisions with committed rows and other uncommitted ones. |
| `TrajectoryConcurrency.MoveRefinesTrajectory` | Backend/src/trajectory/trajectory.service.ts:114-201 | On committed rows every move is one whole operation or nothing, except that a commit is the append of its input if and only if the trace is still ACTIVE at that moment. |
| `TrajectoryConcurrency.AppendCanFollowCompletion` | Backend/src/trajectory/trajectory.service.ts:140-201 | From every sound state, every event that would be accepted can also be stored after its trace was completed, by a client that had read the trace before. |
| `TrajectoryConcurrency.AloneIsAppend` | Backend/src/trajectory/trajectory.service.ts:114-201 | From every sound state, the moves of a call that nothing interrupts add up to one whole append. |
| `Trajectory.TrajectoryIngestionWorker.HandleMessage` | Backend/src/trajectory/ingestion.worker.ts:155-190 | Each outcome of one message updates log, counters and acknowledgements as specified. |
| `Trajectory.TrajectoryIngestionWorker.ProcessBatch` | Backend/src/trajectory/ingestion.worker.ts:104-153 | A batch, fresh or recovered, is its messages handled in order and all acknowledged. |
| `Audit.ChainIsOwnInputsWithoutRepeats` | Backend/src/audit/audit.service.ts:62-126 | For any interleaving over many entities, the chain of each is exactly its own inputs in order without later repeats of an equal type and fingerprint, and it verifies. |
| `Audit.ReplayReturnsStoredRow` | Backend/src/audit/audit.service.ts:70-93 | Appending an earlier input again at any time adds nothing and returns the row stored for it. |
| `Audit.HashLookupIsDead` | Backend/src/audit/audit.service.ts:106-107 | After the lookup by fingerprint found nothing, the lookup by event hash finds nothing. |
| `Audit.SetField` | Backend/src/audit/audit.service.ts:102 | Spreading a payload and assigning a field keeps keys distinct, holds the new value and keeps every other field. |
| `Audit.Sha256HashesAreFaithful` | Backend/src/audit/audit.service.ts:42-55 | With an injective digest, events that share a hash have the same entity, type, predecessor and payload up to key order. |
| `Audit.FingerprintSeparates` | Backend/src/audit/audit.service.ts:74-82 | With an injective digest, two inputs share a fingerprint exactly when they agree in entity, type, key, payload and references, the last two up to key order; two absent keys agree. |
| `Audit.AppendAddsIffNew` | Backend/src/audit/audit.service.ts:62-126 | With an injective digest, an append adds its row if and only if no earlier input agrees with it in all of these. |
| `Audit.AuditService.AppendEvent` | Backend/src/audit/audit.service.ts:62-126 | The method takes exactly the append step and returns the row it specifies. |
| `Audit.AuditService.VerifyChain` | Backend/src/audit/audit.service.ts:137-154 | The loop answers true exactly when link and hash hold at every row of the entity. |
| `AuditConcurrency.ChainVerifiesIffUndisturbed` | Backend/src/audit/audit.service.ts:62-154 | With append split at its awaits, any interleaving of clients and aborts, and creation times in any order, the chain of an entity verifies if and only if no append to it was inserted between the read of another append to it and that one's insert, and none got a creation time before that of a row of the chain. |
| `AuditConcurrency.LogIsSerialIffUndisturbed` | Backend/src/audit/audit.service.ts:62-126 | The log an interleaving leaves is one that whole appends made one at a time can write if and only if no append was overtaken or backdated. |
| `AuditConcurrency.TwoAppendsCanFork` | Backend/src/audit/audit.service.ts:62-126 | Any two different events of one entity can race so that both link to the same row and verification fails. |
| `AuditConcurrency.RepeatNeedsDisturbance` | Backend/src/audit/audit.service.ts:84-93 | An event is stored twice for an entity only in a run in which an append to it was overtaken or backdated; its chain is then broken as well. |
| `AuditConcurrency.RetryCanBeStoredTwice` | Backend/src/audit/audit.service.ts:84-93 | Two deliveries of any event can both be stored when another event of the entity is appended between their reads. |
| `AuditConcurrency.AloneIsAppend` | Backend/src/audit/audit.service.ts:62-126 | The moves of a call that nothing interrupts, with a creation time after all others, add up to one whole append. |
| `AuditConcurrency.BackdatedAppendBreaks` | Backend/src/audit/audit.service.ts:64-67 | An append that read the head and gets an earlier creation time than the head breaks the chain although nothing overtook it. |
| `AuditConcurrency.DifferentInputsCanFork` | Backend/src/audit/audit.service.ts:62-126 | With the hashes of the code over an injective digest, any two inputs of one entity that differ at all can fork its chain. |
| `AuditConcurrency.HashHypothesesAreConsistent` | Backend/src/audit/audit.service.ts:42-55 | Some digest makes the event hashes of the code faithful and keeps them off the starting hash. |
| `TrajectoryBuffers.PreImageIsUnambiguous` | ML/memory/short_term/session_state.py:25-27 | The joined string determines all five parts even when the JSON text contains the separator. |
| `TrajectoryBuffers.BarInTraceIdIsAmbiguous` | ML/memory/short_term/session_state.py:25-27 | For every trace id and event there is an id with a separator and another event that join to the same string. |
| `TrajectoryBuffers.SameLastHashSameBuffer` | ML/memory/short_term/session_state.py:98-114 | Two verified buffers with one last hash have one length and agree on every hashed field; an empty one is told apart if no digest is the starting hash. |
| `TrajectoryBuffers.DigestHypothesesAreConsistent` | ML/memory/short_term/session_state.py:25-27 | Some digest has no collision, no separator in it and never the starting hash. |
| `TrajectoryBuffers.TrajectoryBuffer.Append` | ML/memory/short_term/session_state.py:61-96 | Appending adds one event with the given contents, linked and numbered, and keeps the chain verified. |
| `TrajectoryBuffers.TrajectoryBuffer.VerifyChain` | ML/memory/short_term/session_state.py:98-114 | The loop answers true exactly when link and hash hold at every event. |
| `JsonCanonical.CanonEqualIffSame` | Backend/src/shared/hash.ts:11-22 | Two values without repeated keys or prototype keys have one canonical form exactly when they are equal up to key order at every depth. |
| `JsonCanonical.CanonIsIdempotent` | Backend/src/shared/hash.ts:11-22 | Canonicalizing twice is canonicalizing once. |
| `JsonCanonical.CanonEqualIffSameStripped` | Backend/src/shared/hash.ts:11-22 | In general two values have one canonical form exactly when they are the same after fields named __proto__ are removed at every depth. |
| `JsonCanonical.CanonFaithfulIffNoProto` | Backend/src/shared/hash.ts:16-18 | The canonical form is the same value up to key order if and only if no object in it has a field named __proto__. |
| `JsonCanonical.HashedRecordsAgree` | Backend/src/shared/hash.ts:25-28 | Records with the same field names and one hash agree field by field up to key order (injective digest). |
| `SpelledJson.SpellIsInjective` | Backend/src/shared/hash.ts:25-28 | There is an injective digest of JSON values, and it is never a starting hash. |
| `JsonCanonical.SortedFields` | Backend/src/shared/hash.ts:16 | The keys come out in order, and no field is lost or added. |
| `JsonCanonical.Canonicalize` | Backend/src/shared/hash.ts:11-22 | The recursion that fills an object in key order computes the canonical form. |
| `DecimalStrings.MatchIsTheGrammar` | Blockchain/src/shared/money.ts:10 | The pattern splits a string into whole and fraction exactly when the string is digits, or digits, a point and digits. |
| `Money.ToBaseUnitsMeaning` | Blockchain/src/shared/money.ts:16-35 | A decimal w.f is accepted exactly when the fraction fits, and means w*10^d + f*10^(d-|f|). |
| `Money.AcceptedIsDecimal` | Blockchain/src/shared/money.ts:16-31 | A string is accepted exactly when it is, after trimming, a decimal whose fraction fits. |
| `Money.FromBaseUnitsIsCanonical` | Blockchain/src/shared/money.ts:38-47 | Printing gives a decimal without spare zeros that is worth the units. |
| `Money.RoundTrip` | Blockchain/src/shared/money.ts:16-47 | Reading what was printed gives the same units, for all units and decimals. |
| `Money.CanonicalIsUnique` | Blockchain/src/shared/money.ts:38-47 | Two canonical decimals worth the same are the same string. |
| `Money.ReprintIsIdentityIffCanonical` | Blockchain/src/shared/money.ts:16-47 | Reading and printing returns the same string if and only if it was canonical. |
| `Money.AmountsEqualIffSameNumber` | Blockchain/src/shared/money.ts:50-52 | Two accepted decimals compare equal exactly when they denote the same number. |
| `Money.RefusalsAreBuildErrors` | Blockchain/src/shared/money.ts:16-52 | Whatever is refused is refused as a build error; printing refuses exactly negative units. |
| `Money.SpaceIsListed` | Blockchain/src/shared/money.ts:17 | Trimming removes the white space and line ends of the language and no other character. |
| `Transactions.CheckPassesExactly` | Blockchain/src/transactions/transaction-validator.ts:40-82 | A transaction has no discrepancy exactly when its chain, asset, token contract, function, recipient, units and native value are the expected ones. |
| `Transactions.BuiltPassesIffExpected` | Blockchain/src/transactions/transaction-builder.ts:31-81 | A built transaction passes exactly when the expectation names the same chain id, network, asset, recipient and base-unit amount as the intent. |
| `Transactions.BuildsExactly` | Blockchain/src/transactions/transaction-builder.ts:31-81 | A transaction is built exactly for a payment or transfer of USDC on a configured network, between addresses, of an amount that is not zero and fits 256 bits, and each of its fields is of the intent or the chain. |
| `Transactions.BuildSaysWhy` | Blockchain/src/transactions/transaction-builder.ts:31-81 | Each refusal of the builder has the error of the first condition that fails. |
| `Transactions.TokenIsConfigured` | Blockchain/src/transactions/transaction-builder.ts:31-60 | The token address is the configured one, if it is not empty. |
| `Transactions.CheckSaysWhat` | Blockchain/src/transactions/transaction-validator.ts:40-82 | Each label of a check is there exactly when its field diverges. |
| `Transactions.CheckFailsOnlyOnInput` | Blockchain/src/transactions/transaction-validator.ts:40-82 | A check fails only on an address or an amount that cannot be read. |
| `Transactions.ReceiptVerifiesExactly` | Blockchain/src/receipts/receipt-verifier.ts:27-98 | A receipt verifies exactly when it succeeded, its network matches and the first transfer of the token to the recipient carries the units. |
| `Transactions.ReceiptSaysWhat` | Blockchain/src/receipts/receipt-verifier.ts:27-98 | Each label of a verification is there exactly when what it names went wrong. |
| `Transactions.ReceiptReportsTheTransfer` | Blockchain/src/receipts/receipt-verifier.ts:45-98 | The recipient and amount reported are those of the transfer found, else of the first. |
| `Transactions.FoundIsFirst` | Blockchain/src/receipts/receipt-verifier.ts:45-47 | The transfer found is the first of the token to the recipient. |
| `Transactions.OneQuantityEndToEnd` | Blockchain/src/receipts/receipt-verifier.ts:27-98 | For a built transaction that passed the check, a receipt verifies exactly when its first matching transfer moves the units in the calldata. |
| `Transactions.CodecHypothesisIsConsistent` | Blockchain/src/transactions/transaction-builder.ts:31-81 | There is an address codec that meets what the theorems ask of one. |
| `Transactions.Check` | Blockchain/src/transactions/transaction-validator.ts:40-82 | The branch by branch method computes the label list the exactness theorems are about, errors included. |
| `Transactions.CheckCall` | Blockchain/src/transactions/transaction-validator.ts:56-76 | The part on function, recipient and amount does the same. |
| `Transactions.FindTransfer` | Blockchain/src/receipts/receipt-verifier.ts:45-47 | The search stops at the first transfer of the token to the recipient. |
| `Transactions.VerifyReceipt` | Blockchain/src/receipts/receipt-verifier.ts:27-98 | The method computes the verification record the exactness theorem is about. |
| `ExecutionPipeline.AtMostOneBroadcastPerKey` | Blockchain/src/execution/execution-pipeline.ts:78-137 | In every sequence of complete calls with non-empty execution ids, whatever the outside answers, the signer is asked at most once per idempotency key, and only for a transaction without discrepancies whose very payload passed simulation. |
| `ExecutionPipeline.BroadcastsAreJustified` | Blockchain/src/execution/execution-pipeline.ts:78-137 | With any execution ids the same justification holds for every broadcast of every run, and a key is broadcast again only after a broadcast for it with an empty id. |
| `ExecutionPipeline.RebroadcastsIffIdIsEmpty` | Blockchain/src/execution/idempotency-store.ts:32-44 | In any reachable state, a call for a key that was broadcast before is broadcast again if and only if the key is indexed under the empty id and the call itself gets past preparation and the sender check; with a lawful address codec preparation is enough. |
| `ExecutionPipeline.TwoCallsBroadcastTwiceIffIdIsEmpty` | Blockchain/src/execution/execution-pipeline.ts:78-137 | Two prepared calls with one new key are broadcast twice if the first execution id is empty, and once if it is not. |
| `PipelineConcurrency.BroadcastTwiceIffOverlap` | Blockchain/src/execution/execution-pipeline.ts:78-137 | With calls in flight together and execution ids given for a key: once no call for it is still on the way to the signer, it was broadcast twice or more if and only if some call passed the lookup while another that broadcasts had passed it and not recorded; without that, at most once at any time. |
| `PipelineConcurrency.AloneIsExecute` | Blockchain/src/execution/execution-pipeline.ts:78-137 | The moves of a call that nothing interrupts add up to the whole call. |
| `PipelineConcurrency.TwoInFlightBroadcastTwice` | Blockchain/src/execution/execution-pipeline.ts:78-115 | Any two prepared calls for one new key that both pass the lookup before either records make two broadcasts. |
| `ExecutionPipeline.BroadcastNeedsPass` | Blockchain/src/execution/execution-pipeline.ts:91-107 | A call broadcasts at most once, only for a new key, and only the transaction it prepared after a PASS simulation of that payload. |
| `ExecutionPipeline.PreparesExactly` | Blockchain/src/execution/execution-pipeline.ts:79-102 | A call is prepared exactly when network and chain match, the builder makes a transaction, the validator finds nothing, and a simulation of this payload passed. |
| `ExecutionPipeline.RefusalSaysWhy` | Blockchain/src/execution/execution-pipeline.ts:79-102 | What stands against a call is its error, the first that applies, and nothing is touched. |
| `ExecutionPipeline.PreparedCallEndsAsAnswered` | Blockchain/src/execution/execution-pipeline.ts:104-137 | The one stored record carries the call; it is CONFIRMED exactly if a receipt came and succeeded, FAILED if it came and did not or the submission failed, UNKNOWN if none came or the submission threw, PENDING if the lookup failed; the signer is asked exactly when sender and signer are one readable address. |
| `ExecutionPipeline.ReverifiesExactly` | Blockchain/src/execution/execution-pipeline.ts:152-187 | A verification is refused for the first obstacle that applies, and otherwise verified exactly when the receipt succeeded on the recorded chain and its first matching transfer carries the authorized amount. |
| `ExecutionPipeline.VerificationIsStored` | Blockchain/src/execution/execution-pipeline.ts:180-187 | A verification is stored with its execution and nothing else changes. |
| `ExecutionPipeline.LaterCallReturnsStoredRecord` | Blockchain/src/execution/execution-pipeline.ts:79-81 | After a broadcast for a key with an execution id, every later call with that key changes nothing and returns the stored result, whatever ids other calls of the run used. |
| `ExecutionPipeline.RepliesAreOwnIffIdsFollowKeys` | Blockchain/src/execution/execution-pipeline.ts:78-137 | After any sequence of calls, every key that is found answers with its own record if and only if no execution id was used for two keys among the calls that stored something. |
| `ExecutionPipeline.CallKeepsOwnAnswersIff` | Blockchain/src/execution/execution-pipeline.ts:78-122 | One call keeps this exactly when it stores nothing or no other key is indexed under its execution id, and no later call repairs it. |
| `ExecutionPipeline.PutKeepsOwnAnswersIff` | Blockchain/src/execution/idempotency-store.ts:32-44 | The same for one write to the store. |
| `ExecutionPipeline.SharedIdAnswersForOtherKey` | Blockchain/src/execution/execution-pipeline.ts:78-137 | Two calls that store under one execution id for different keys: the next call with the earlier key is answered with the result of the other key. |
| `ExecutionPipeline.InMemoryIdempotencyStore.FindByKey` | Blockchain/src/execution/idempotency-store.ts:32-35 | The lookup goes through the key index, and an empty id counts as absent. |
| `ExecutionPipeline.InMemoryIdempotencyStore.PutRecord` | Blockchain/src/execution/idempotency-store.ts:41-44 | Record and key index are both written. |
| `ExecutionPipeline.InMemoryIdempotencyStore.UpdateResult` | Blockchain/src/execution/idempotency-store.ts:46-49 | Only an existing record is patched, and the index stays. |
| `ExecutionPipeline.Signer.SendTransaction` | Blockchain/src/execution/submitter.ts:65-79 | The broadcast is added to the history whether or not it succeeds. |
| `ExecutionPipeline.Submitter.Submit` | Blockchain/src/execution/submitter.ts:94-111 | A foreign sender is refused without a broadcast, and a failed broadcast is SUBMISSION_FAILED. |
| `ExecutionPipeline.Pipeline.Run` | Blockchain/src/execution/execution-pipeline.ts:78-137 | The ordered steps take exactly the specified call on store and history. |
| `ExecutionPipeline.Pipeline.SubmitPrepared` | Blockchain/src/execution/execution-pipeline.ts:104-137 | Submission, record, receipt and the three result statuses are as specified. |
| `ExecutionPipeline.Pipeline.GetResult` | Blockchain/src/execution/execution-pipeline.ts:140-146 | The recorded result, or an error for an unknown id. |
| `ExecutionPipeline.Pipeline.Verify` | Blockchain/src/execution/execution-pipeline.ts:152-187 | The verification of the recorded authorization against a fresh receipt is stored, or the first obstacle is returned and nothing changes. |
| `Capabilities.WithinParentIffContained` | Backend/src/domain/capabilities/capability.service.ts:129-174 | Under an active parent the syntactic check admits a grant if and only if every use it permits is permitted by the parent and its expiry is not later. |
| `Capabilities.DelegationNeverExpands` | Backend/src/domain/capabilities/capability.service.ts:180-234 | For delegation chains of any length in any run, what a capability permits is permitted by every ancestor, and one that has not expired has no expired ancestor. |
| `Capabilities.ContainmentIsPermanent` | Backend/src/domain/capabilities/capability.service.ts:180-234 | Grants and parents never change, so a lineage and its containment hold for the rest of the run. |
| `Capabilities.ValidateIsFailClosed` | Backend/src/domain/capabilities/capability.service.ts:263-290 | Validation succeeds exactly for an active, started, unexpired capability of the company. |
| `Capabilities.ValidateSaysWhy` | Backend/src/domain/capabilities/capability.service.ts:263-290 | An expired capability is CAPABILITY_EXPIRED, any other that does not count CAPABILITY_INVALID. |
| `Capabilities.CreatesExactly` | Backend/src/domain/capabilities/capability.service.ts:180-234 | A capability is created exactly when its agent is known, its grant meets the constitution of the agent and its parent admits it, and it is stored ACTIVE with all it was asked for. |
| `Capabilities.ConstitutionIsMet` | Backend/src/domain/capabilities/capability.service.ts:78-126 | A grant meets a constitution exactly when its action is allowed and not blocked, its asset, network and categories are listed where both name them, and its single limit is no larger. |
| `Capabilities.InactiveParentAdmitsNothing` | Backend/src/domain/capabilities/capability.service.ts:129-174 | A parent that is not active admits nothing. |
| `Capabilities.RevokesExactly` | Backend/src/domain/capabilities/capability.service.ts:293-312 | A revocation is of the own company, reaches the capability and its ACTIVE children, and no other row. |
| `Capabilities.ExpiresExactly` | Backend/src/domain/capabilities/capability.service.ts:318-324 | An expiry run reaches exactly the active capabilities of the company whose time has passed. |
| `Capabilities.RevokeKeepsPromiseIffNoGrandchild` | Backend/src/domain/capabilities/capability.service.ts:293-312 | In a state where no active capability has a revoked parent, a revocation keeps it so if and only if the capability has no active child with an active child. |
| `Capabilities.PromiseHoldsIffAllSpare` | Backend/src/domain/capabilities/capability.service.ts:180-324 | Throughout a run no active capability has a revoked parent if and only if no revocation in it meets such a grandchild. |
| `Capabilities.RevokeKeepsLineagesIffNoneDeep` | Backend/src/domain/capabilities/capability.service.ts:293-312 | A revocation keeps all active capabilities free of revoked ancestors at any distance if and only if no active one lies two or more steps below the revoked one. |
| `Capabilities.DeepDescendantsAreSpared` | Backend/src/domain/capabilities/capability.service.ts:293-312 | Every descendant two or more steps below a revoked capability stays as it was and validates as it did. |
| `Capabilities.GrandchildOutlivesRevokedParent` | Backend/src/domain/capabilities/capability.service.ts:180-312 | For every usable grant: three creations in line, the first revoked, and the third still validates under a revoked parent. |
| `Capabilities.ReachableIsRooted` | Backend/src/domain/capabilities/capability.service.ts:180-234 | In every run each parent chain ends: parents are older than their children. |
| `Capabilities.CapabilityService.CreateCapability` | Backend/src/domain/capabilities/capability.service.ts:180-234 | The method takes exactly the creation step, with its refusals in order. |
| `Capabilities.CapabilityService.ValidateCapability` | Backend/src/domain/capabilities/capability.service.ts:263-290 | The method gives the specified answer or error. |
| `Capabilities.CapabilityService.RevokeCapability` | Backend/src/domain/capabilities/capability.service.ts:293-312 | The method takes exactly the revocation step: the capability, whatever its status, and its direct ACTIVE children of the company become REVOKED, and every other row stays. |
| `Capabilities.CapabilityService.ExpireCapabilities` | Backend/src/domain/capabilities/capability.service.ts:318-324 | Exactly the active capabilities of the company whose expiry has passed become EXPIRED. |
| `PolicyEngine.EvaluationIgnoresOrder` | Backend/src/policy/engine/engine.ts:64-119 | For rules with distinct ids under a total id order, every permutation gives the same status, checked rules, violations, requirements and hash pre-image, whatever sorting algorithm is used. |
| `PolicyEngine.OrderedIsUnique` | Backend/src/policy/engine/engine.ts:65-68 | Rules with distinct ids have exactly one arrangement ordered by priority and id. |
| `PolicyEngine.SortIsOrdered` | Backend/src/policy/engine/engine.ts:65-68 | Sorting arranges the rules by priority and id. |
| `PolicyEngine.StatusMeaning` | Backend/src/policy/engine/engine.ts:76-97 | FAIL exactly when an enabled rule is violated, PASS exactly when none is violated and none asks for approval or review; with any ids. |
| `PolicyMeaning.StatusOverThePayment` | Backend/src/policy/engine/engine.ts:64-119 | Said of the payment itself: FAIL exactly when an enabled rule stands against it, PASS exactly when none does and none wants a human. |
| `PolicyMeaning.RuleMeansItsDemand` | Backend/src/policy/rules/evaluators.ts:31-338 | Each of the sixteen evaluators is violated exactly when the demand of its rule on the payment and its context is not met, asks for approval exactly when it wants a human, and is skipped exactly when it does not apply. |
| `PolicyMeaning.AmountLimitsBindTheAmount` | Backend/src/policy/rules/evaluators.ts:31-47 | Under amount limits alone a payment passes exactly when its amount is given and within every maximum, and fails otherwise. |
| `PolicyMeaning.HourEnclosesTime` | Backend/src/policy/rules/evaluators.ts:222-237 | The UTC hour is the one whose first and last instants enclose the time of day. |
| `PolicyMeaning.ReportsSayWhy` | Backend/src/policy/engine/engine.ts:76-97 | Every enabled rule that stands against the payment is among the violations, and every one that wants a human among the requirements. |
| `PolicyMeaning.ReportsSayNothingElse` | Backend/src/policy/engine/engine.ts:76-97 | And nothing else is. |
| `PolicyMeaning.HashedIsTheEvaluation` | Backend/src/policy/engine/engine.ts:99-119 | What is hashed is policy, version, enabled rules, context, and each id with its result. |
| `PolicyEngine.MoreRulesAreStricter` | Backend/src/policy/engine/engine.ts:76-97 | More enabled rules never move the status towards PASS. |
| `PolicyEngine.OrderHypothesisIsConsistent` | Backend/src/policy/engine/engine.ts:65-68 | There is a total order of rule ids. |
| `PolicyRules.ValidateCompiledRules` | Backend/src/policy/rules/types.ts:94-116 | Accepts exactly the lists of known rules with distinct non-empty ids; otherwise the error is that of the first faulty rule. |
| `PolicyRules.FaultMeans` | Backend/src/policy/rules/types.ts:94-116 | An empty id or an unknown type is POLICY_INVALID, a repeated id POLICY_CONFLICT. |
| `PolicyRules.WindowsNeverOverflow` | Backend/src/policy/rules/evaluators.ts:269-301 | If payments are recorded only when the structuring rule does not object, no interval as long as the window holds more than the permitted number at or below the threshold, even with a clock that jumps. |
| `PolicyRules.RefusesOnlyWhenFull` | Backend/src/policy/rules/evaluators.ts:269-301 | With a clock that has not run ahead, a payment is refused if and only if it is at or below the threshold and the window ending with it is full. |
| `PolicyRules.TotalsStayWithinLimit` | Backend/src/policy/rules/evaluators.ts:51-81 | If payments are recorded only when the cumulative rule does not object, no total ever passes the maximum: with a scalar window the sum of everything recorded, with a keyed one the sum for each key. A payment without a key counts towards none, as in the code. |
| `PolicyRules.TimeWindowIsCyclic` | Backend/src/policy/rules/evaluators.ts:222-237 | A time window is the cyclic half-open interval of hours, across midnight too; from an hour to itself it is empty. |
| `PolicyLifecycle.ActiveVersionIsUniqueAndNamed` | Backend/src/policy/policy.service.ts:185-213 | In every run a policy has at most one ACTIVE version, its number is the current version of the policy, and its hash is that of its rules. |
| `PolicyLifecycle.ActiveWasReviewed` | Backend/src/policy/policy.service.ts:22-30 | Every ACTIVE version went through DRAFT, VALIDATING, SIMULATED, APPROVED in this order and no other way. |
| `PolicyLifecycle.VersionsAreImmutable` | Backend/src/policy/policy.service.ts:139-213 | Policy, number, rules and hash of a version never change, and SUPERSEDED and DISABLED are final. |
| `PolicyLifecycle.VersionsAreNumberedWithoutGaps` | Backend/src/policy/policy.service.ts:79-95 | In every run the versions of a policy are numbered 1, 2, 3 and so on, each number once. |
| `PolicyLifecycle.TrailIsTrail` | Backend/src/policy/policy.service.ts:131-178 | Every version starts as a draft, follows the transition table and never returns to DRAFT. |
| `PolicyLifecycle.TransitionTable` | Backend/src/policy/policy.service.ts:22-30 | The allowed transitions, pair by pair. |
| `PolicyLifecycle.DraftsExactly` | Backend/src/policy/policy.service.ts:51-113 | A draft needs a name, a known company and well-formed rules; it adds one DRAFT version with the rules and their hash to the policy of that company, agent and name, made if there is none. |
| `PolicyLifecycle.NewPolicyIsInactive` | Backend/src/policy/policy.service.ts:57-95 | A new policy starts without an active version, at version 1. |
| `PolicyLifecycle.MovesExactly` | Backend/src/policy/policy.service.ts:131-178 | A move is of the own company, follows the table and changes the one status alone. |
| `PolicyLifecycle.ActivatesExactly` | Backend/src/policy/policy.service.ts:185-213 | Activation is of an APPROVED version: it becomes ACTIVE, the active one SUPERSEDED, and the policy names it. |
| `VersionNumbers.FindLatest` | Backend/src/policy/policy.service.ts:79-83 | The loop finds the highest version number of an owner, or 0. |
| `PolicyLifecycle.PolicyService.Draft` | Backend/src/policy/policy.service.ts:51-113 | The method takes exactly the drafting step, with its refusals. |
| `PolicyLifecycle.PolicyService.Move` | Backend/src/policy/policy.service.ts:139-178 | The method takes exactly the transition step. |
| `PolicyLifecycle.PolicyService.ActivateVersion` | Backend/src/policy/policy.service.ts:185-213 | The method takes exactly the activation step: supersede, activate, repoint. |
| `ConstitutionLifecycle.PointerNamesTheActiveOne` | Backend/src/domain/constitutions/constitution.service.ts:138-176 | In every run each agent has at most one ACTIVE constitution, and a constitution is ACTIVE exactly when the pointer of its agent names it. |
| `ConstitutionLifecycle.VersionsAreImmutable` | Backend/src/domain/constitutions/constitution.service.ts:156-166 | Configuration, number and hash of a version never change, and SUPERSEDED and DISABLED are final. |
| `ConstitutionLifecycle.VersionsAreUnique` | Backend/src/domain/constitutions/constitution.service.ts:92-110 | The versions of an agent have different numbers in every run. |
| `ConstitutionLifecycle.NeverWithoutAgain` | Backend/src/domain/constitutions/constitution.service.ts:138-176 | An agent that has an active constitution always has one from then on. |
| `ConstitutionLifecycle.CreatesExactly` | Backend/src/domain/constitutions/constitution.service.ts:79-110 | A constitution needs a valid configuration and a known agent; it is stored as DRAFT with the next version number. |
| `ConstitutionLifecycle.ActivatesExactly` | Backend/src/domain/constitutions/constitution.service.ts:138-176 | Activation is of a draft or active version of the company: it becomes ACTIVE, the other active one SUPERSEDED, and the pointer of the agent names it. |
| `ConstitutionLifecycle.PatternIsDecimalText` | Backend/src/domain/constitutions/constitution.service.ts:63 | The limit pattern matches exactly digits, or digits, a point and digits. |
| `ConstitutionLifecycle.ValidateConstitution` | Backend/src/domain/constitutions/constitution.service.ts:54-72 | Accepts exactly configurations with an allowed action and decimal limits only. |
| `ConstitutionLifecycle.ConstitutionService.CreateConstitution` | Backend/src/domain/constitutions/constitution.service.ts:79-110 | The method takes exactly the creation step, with the next version number. |
| `ConstitutionLifecycle.ConstitutionService.ActivateConstitution` | Backend/src/domain/constitutions/constitution.service.ts:138-176 | The method takes exactly the activation step. |
| `EvidenceGraphs.EvidenceGraph.IndependentRootCount` | ML/memory/provenance/evidence_graph.py:63-89 | On every graph, cyclic ones included, the search ends and returns the number of nodes without a known parent. |
| `EvidenceGraphs.EvidenceGraph.ResolveRoots` | ML/memory/provenance/evidence_graph.py:74-84 | The recursive search ends, the nodes not yet seen getting fewer; what it returns is known and reached from the node along citations, and a root resolves to itself. |
| `EvidenceGraphs.EvidenceGraph.IndependentRoots` | ML/memory/provenance/evidence_graph.py:48-61 | The list holds exactly the nodes without a known parent, each once, in insertion order. |
| `EvidenceGraphs.EvidenceGraph.Add` | ML/memory/provenance/evidence_graph.py:34-39 | Node, citations and citation keys are added as specified. |
| `EvidenceGraphs.EvidenceGraph.CiteAll` | ML/memory/provenance/evidence_graph.py:34-39 | The loop over the cited parents adds each to the citations of the node and gives it a key of its own, and drops no key. |
| `EvidenceGraphs.AddsExactly` | ML/memory/provenance/evidence_graph.py:34-39 | Adding an item puts its node under its id, new ids at the end, adds what it says to what its id cites, and changes nothing else. |
| `EvidenceGraphs.BuildGraph` | ML/memory/provenance/evidence_graph.py:92-108 | The loop builds the graph of the list. |
| `EvidenceGraphs.RootsOfBuild` | ML/memory/provenance/evidence_graph.py:92-108 | The roots read off the list: ids that no item with that id derives from a listed id. |
| `EvidenceGraphs.RootsIgnoreOrder` | ML/memory/provenance/evidence_graph.py:63-108 | Order and repetition of the evidence change neither roots nor count. |
| `EvidenceGraphs.RepetitionAddsNoRoot` | ML/memory/provenance/evidence_graph.py:63-108 | Any number of fresh, uncited items that each cite a known one leave roots and count alone. |
| `EvidenceGraphs.AcyclicHasRoot` | ML/memory/provenance/evidence_graph.py:48-89 | A non-empty acyclic graph has at least one root. |

## Left out

- decimal.js precision and rounding: backend amounts are integers, and strings that are not decimals do not reach these services.
- Negative reservation amounts in whole runs: the contract pattern allows them and `reserve` accepts them; `Ledger.NegativeHoldBreaksLimit` shows on one account what they do to the limit.
- Interleavings inside commit, release, reconcileRelease and markUnknown: they read the reservation before, or without, the row lock, so each is one atomic step here.
- Calls in flight together whose keys come without execution ids: the theorems on these are about whole calls in sequence.
- Creation times as instants: an insert names the place where its time puts the row, which also stands for how equal times are ordered, and that place does not change later.
- Rule ids that `localeCompare` does not tell apart: the order of ids is total.
- Interleavings inside the decision of a revalidation and inside executor answers: what is split at its awaits is the part from registration to binding.
- Agreement of the reserved amount with the analysed amount: final revalidation does not compare them.
- Progress of request status: it mirrors the latest answer and may move backwards, and finalization does not look at it.
- Integer-like object keys and UTF-16: field order is compared by Dafny characters, and the special enumeration order of integer-like keys is not modelled.
- The text form of JSON: `JSON.stringify`, `json.dumps`, the SHA-256 digest and the hexadecimal form are one injective function.
- Time stamps as text: they are instants, an unreadable one being absent where the code tests for it; Redis reading, pending entries and consumer groups are the list of messages handled.
- Fields that are stored and not checked or hashed: source references, trust context, actors and correlation ids in the logs, names and metadata of provenance sources beyond the node, creation and activation times.
- Unhashed fields of buffer events: agent, references, trust context and the stored sequence can differ between two buffers with one last hash.
- EIP-55 checksums and hexadecimal text: an address codec with a strict and a lenient reading is a parameter, and calldata is a datatype with an amount below 2^256.
- The INVALID outcome of transaction analysis inside the pipeline: it cannot occur for a transaction the builder made.
- Chain registry, RPC client, simulator and receipt parser: their answers are inputs of a call.
- Idempotency records beyond progress: stored responses, resources and expiry.
- Trimming of policy names, descriptions and the normalized rule rows written next to a version.
- `normalizeToTransactionIntent`, read-only getters, and `assertMutableForEdit`, which nothing in these services calls.
- Containment of validFrom, and of constitution dimensions that a capability leaves open: the code does not check them.
- Risk scores, prompts, retrieval, HTTP routes, telemetry and the user interface: other subsystems or easy members.
