/**
 * The services as they run: methods that read and write rows of one database. Each is
 * proved to take exactly the step that Ledger, Idempotency and ExecutionProtocol describe.
 */
module Services {
  import opened Wrappers
  import L = Ledger
  import I = Idempotency
  import D = DecisionEngine
  import G = TransactionGate
  import P = ExecutionProtocol
  import R = PolicyRules

  class Database {
    var accounts: map<L.Id, L.Account>
    var reservations: map<L.Id, L.Reservation>
    var nextId: L.Id
    var registrations: I.Table
    var requests: map<P.Id, P.Request>
    var nextRequest: P.Id
    var results: seq<P.ResultRow>
    var verifications: seq<P.Verification>

    constructor ()
      ensures World() == P.EMPTY && P.Inv(World())
    {
      accounts, reservations, nextId, registrations := map[], map[], 0, map[];
      requests, nextRequest, results, verifications := map[], 0, [], [];
    }

    ghost function Ledger(): L.State
      reads this
    {
      L.State(accounts, reservations, nextId)
    }

    ghost function World(): P.World
      reads this
    {
      P.World(Ledger(), registrations, requests, nextRequest, results, verifications)
    }
  }

  // -------------------------------------------------------------------------- ledger

  class FinancialService {
    const db: Database

    constructor (db: Database)
      ensures this.db == db
    {
      this.db := db;
    }

    method EnsureAccount(key: L.AccountKey, agentId: Option<string>, limit: Option<nat>) returns (a: L.Id)
      requires L.UniqueKeys(db.Ledger())
      modifies db`accounts, db`nextId
      ensures (db.Ledger(), a) == L.EnsureAccount(old(db.Ledger()), key, agentId, limit)
    {
      if existing :| existing in db.accounts && db.accounts[existing].key == key {
        return existing;
      }
      a := db.nextId;
      db.accounts := db.accounts[a := L.Account(key, agentId, 0, 0, limit)];
      db.nextId := a + 1;
    }

    method Reserve(input: L.ReserveInput) returns (r: Result<L.Id>)
      requires L.Inv(db.Ledger())
      modifies db`accounts, db`nextId, db`reservations
      ensures (db.Ledger(), r) == L.Reserve(old(db.Ledger()), input)
    {
      L.EnsureKeepsInv(db.Ledger(), input.key, input.agentId, None);
      var account := EnsureAccount(input.key, input.agentId, None);
      var row := db.accounts[account];
      var projected := row.reserved + row.committed + input.amount;
      if row.limit.Some? && projected > row.limit.value {
        return Err(POLICY_VIOLATION);
      }
      var id := db.nextId;
      db.nextId := id + 1;
      db.reservations := db.reservations[id :=
        L.Reservation(input.key.companyId, input.agentId, input.executionRequestId, account, input.amount, input.key.asset, L.RESERVED)];
      db.accounts := db.accounts[account := row.(reserved := row.reserved + input.amount)];
      return Ok(id);
    }

    method Commit(companyId: string, id: L.Id) returns (r: Result<L.Id>)
      modifies db`accounts, db`reservations
      ensures (db.Ledger(), r) == L.Commit(old(db.Ledger()), companyId, id)
    {
      if id !in db.reservations || db.reservations[id].companyId != companyId { return Err(NOT_FOUND); }
      var res := db.reservations[id];
      if res.status == L.COMMITTED { return Ok(id); }
      if res.status != L.RESERVED { return Err(CONFLICT); }
      if res.accountId !in db.accounts { return Err(INTERNAL_ERROR); }
      var row := db.accounts[res.accountId];
      db.accounts := db.accounts[res.accountId :=
        row.(reserved := row.reserved - res.amount, committed := row.committed + res.amount)];
      db.reservations := db.reservations[id := res.(status := L.COMMITTED)];
      return Ok(id);
    }

    method Release(companyId: string, id: L.Id) returns (r: Result<L.Id>)
      modifies db`accounts, db`reservations
      ensures (db.Ledger(), r) == L.Release(old(db.Ledger()), companyId, id)
    {
      if id !in db.reservations || db.reservations[id].companyId != companyId { return Err(NOT_FOUND); }
      var res := db.reservations[id];
      if res.status == L.RELEASED { return Ok(id); }
      if res.status == L.UNKNOWN { return Err(CONFLICT); }
      if res.status != L.RESERVED { return Err(CONFLICT); }
      if res.accountId !in db.accounts { return Err(INTERNAL_ERROR); }
      var row := db.accounts[res.accountId];
      db.accounts := db.accounts[res.accountId := row.(reserved := row.reserved - res.amount)];
      db.reservations := db.reservations[id := res.(status := L.RELEASED)];
      return Ok(id);
    }

    method ReconcileRelease(companyId: string, id: L.Id) returns (r: Result<L.Id>)
      modifies db`accounts, db`reservations
      ensures (db.Ledger(), r) == L.ReconcileRelease(old(db.Ledger()), companyId, id)
    {
      if id !in db.reservations || db.reservations[id].companyId != companyId { return Err(NOT_FOUND); }
      var res := db.reservations[id];
      if res.status == L.RELEASED { return Ok(id); }
      if res.status == L.COMMITTED { return Err(CONFLICT); }
      if res.accountId !in db.accounts { return Err(INTERNAL_ERROR); }
      var row := db.accounts[res.accountId];
      db.accounts := db.accounts[res.accountId := row.(reserved := row.reserved - res.amount)];
      db.reservations := db.reservations[id := res.(status := L.RELEASED)];
      return Ok(id);
    }

    method MarkUnknown(companyId: string, id: L.Id) returns (r: Result<L.Id>)
      modifies db`reservations
      ensures (db.Ledger(), r) == L.MarkUnknown(old(db.Ledger()), companyId, id)
    {
      if id !in db.reservations || db.reservations[id].companyId != companyId { return Err(NOT_FOUND); }
      var res := db.reservations[id];
      if res.status != L.RESERVED && res.status != L.UNKNOWN { return Err(CONFLICT); }
      db.reservations := db.reservations[id := res.(status := L.UNKNOWN)];
      return Ok(id);
    }
  }

  // --------------------------------------------------------------------- idempotency

  class IdempotencyService {
    const db: Database

    constructor (db: Database)
      ensures this.db == db
    {
      this.db := db;
    }

    method Register(key: I.Key, hash: string) returns (r: Result<I.Outcome>)
      modifies db`registrations
      ensures (db.registrations, r) == I.Register(old(db.registrations), key, hash)
    {
      if key in db.registrations {
        var existing := db.registrations[key];
        if existing.requestHash != hash { return Err(IDEMPOTENCY_CONFLICT); }
        return Ok(I.REPLAY);
      }
      db.registrations := db.registrations[key := I.Record(hash, I.IN_PROGRESS)];
      return Ok(I.NEW);
    }
  }

  // ---------------------------------------------------------------- executor answers

  class ExecutionResultService {
    const db: Database
    const financial: FinancialService

    constructor (db: Database)
      ensures this.db == db && financial.db == db
    {
      this.db := db;
      financial := new FinancialService(db);
    }

    ghost predicate Valid() {
      financial.db == db
    }

    /** The reservation bound to the request with one of the statuses, as the lookup of the protocol finds it. */
    method FindBound(companyId: string, q: P.Id, statuses: set<L.Status>) returns (found: Option<L.Id>)
      requires P.Linked(db.reservations, db.requests)
      ensures found == P.FindBound(db.World(), companyId, q, statuses)
    {
      ghost var spec := P.FindBound(db.World(), companyId, q, statuses);
      if r :| r in db.reservations && P.IsBound(db.reservations[r], companyId, q, statuses) {
        assert P.Backs(db.reservations, r, q) && P.Backs(db.reservations, spec.value, q);
        return Some(r);
      }
      return None;
    }

    method HoldReservation(companyId: string, q: P.Id)
      requires Valid() && P.Linked(db.reservations, db.requests)
      modifies db`reservations
      ensures db.World() == P.SettleBound(old(db.World()), L.DoMarkUnknown, companyId, q, {L.RESERVED})
    {
      var reservation := FindBound(companyId, q, {L.RESERVED});
      if reservation.Some? {
        var _ := financial.MarkUnknown(companyId, reservation.value);
      }
    }

    method ReleaseReservation(companyId: string, q: P.Id)
      requires Valid() && P.Linked(db.reservations, db.requests)
      modifies db`reservations, db`accounts
      ensures db.World() == P.SettleBound(old(db.World()), L.DoRelease, companyId, q, {L.RESERVED})
    {
      var reservation := FindBound(companyId, q, {L.RESERVED});
      if reservation.Some? {
        var _ := financial.Release(companyId, reservation.value);
      }
    }

    /** Insert the result row and let the request mirror it. */
    method RecordResult(row: P.ResultRow)
      requires row.requestId in db.requests
      modifies db`results, db`requests
      ensures db.World() == P.Recorded(old(db.World()), row)
      ensures P.SameRequests(old(db.requests), db.requests)
    {
      db.results := db.results + [row];
      SetStatus(row.requestId, row.status);
    }

    method SetStatus(q: P.Id, status: P.RequestStatus)
      requires q in db.requests
      modifies db`requests
      ensures db.World() == P.SetStatus(old(db.World()), q, status)
      ensures P.SameRequests(old(db.requests), db.requests)
    {
      db.requests := db.requests[q := db.requests[q].(status := status)];
    }

    method IngestResult(companyId: string, input: P.ResultInput) returns (r: Result<P.ResultRow>)
      requires Valid() && P.Linked(db.reservations, db.requests)
      modifies db
      ensures (db.World(), r) == P.Ingest(old(db.World()), companyId, input)
    {
      var q := input.executionId;
      if !input.authenticated { return Err(AUTHENTICATION_ERROR); }
      if q !in db.requests || db.requests[q].companyId != companyId { return Err(EXECUTION_FAILED); }
      if input.chain != db.requests[q].network { return Err(TRANSACTION_MISMATCH); }
      var row := P.ResultRow(q, input.status, input.chain, input.transactionHash);
      RecordResult(row);
      P.SameRequestsKeepLinks(db.reservations, old(db.requests), db.requests);
      if input.status == P.UNKNOWN {
        HoldReservation(companyId, q);
      }
      if input.status == P.FAILED {
        ReleaseReservation(companyId, q);
      }
      return Ok(row);
    }

    /** Reconciliation may free an UNKNOWN hold too. */
    method FreeReservation(companyId: string, q: P.Id)
      requires Valid() && P.Linked(db.reservations, db.requests)
      modifies db`reservations, db`accounts
      ensures db.World() == P.SettleBound(old(db.World()), L.DoReconcileRelease, companyId, q, {L.RESERVED, L.UNKNOWN})
    {
      var held := FindBound(companyId, q, {L.RESERVED, L.UNKNOWN});
      if held.Some? {
        var _ := financial.ReconcileRelease(companyId, held.value);
      }
    }

    method Reconcile(companyId: string, q: P.Id, answer: P.RequestStatus) returns (r: Result<P.Reconciled>)
      requires Valid() && P.Linked(db.reservations, db.requests)
      modifies db
      ensures (db.World(), r) == P.Reconcile(old(db.World()), companyId, q, answer)
    {
      if q !in db.requests || db.requests[q].companyId != companyId { return Err(EXECUTION_FAILED); }
      if answer == P.CONFIRMED {
        SetStatus(q, P.CONFIRMED);
        return Ok(P.R_CONFIRMED);
      }
      if answer == P.FAILED {
        SetStatus(q, P.FAILED);
        P.SameRequestsKeepLinks(db.reservations, old(db.requests), db.requests);
        FreeReservation(companyId, q);
        return Ok(P.R_FAILED);
      }
      return Ok(P.STILL_UNKNOWN);
    }

    method CompareReceipts(authorized: P.Receipt, actual: P.Receipt, clientVerified: bool) returns (ds: seq<P.Discrepancy>)
      ensures ds == P.Discrepancies(authorized, actual, clientVerified)
      ensures ds == [] <==> authorized == actual && clientVerified
    {
      ds := [];
      if authorized.recipient != actual.recipient { ds := ds + [P.RECIPIENT]; }
      if authorized.asset != actual.asset { ds := ds + [P.ASSET]; }
      if authorized.amount != actual.amount { ds := ds + [P.AMOUNT]; }
      if authorized.network != actual.network { ds := ds + [P.NETWORK]; }
      if !clientVerified { ds := ds + [P.EXECUTOR_UNVERIFIED]; }
      P.NoDiscrepancies(authorized, actual, clientVerified);
    }

    method CommitReservation(companyId: string, q: P.Id) returns (committed: bool)
      requires Valid() && P.Linked(db.reservations, db.requests)
      modifies db`reservations, db`accounts
      ensures db.World() == P.SettleBound(old(db.World()), L.DoCommit, companyId, q, {L.RESERVED})
      ensures committed == P.FindBound(old(db.World()), companyId, q, {L.RESERVED}).Some?
    {
      var reservation := FindBound(companyId, q, {L.RESERVED});
      if reservation.Some? {
        var _ := financial.Commit(companyId, reservation.value);
        return true;
      }
      return false;
    }

    method VerifyAndFinalize(companyId: string, q: P.Id, authorized: P.Receipt, actual: P.Receipt, clientVerified: bool)
      returns (r: Result<(P.Verification, bool)>)
      requires Valid() && P.Linked(db.reservations, db.requests)
      modifies db
      ensures (db.World(), r) == P.Verify(old(db.World()), companyId, q, authorized, actual, clientVerified)
    {
      if q !in db.requests || db.requests[q].companyId != companyId { return Err(EXECUTION_FAILED); }
      var discrepancies := CompareReceipts(authorized, actual, clientVerified);
      var verified := |discrepancies| == 0;
      var verification := P.Verification(q, verified, authorized, actual, discrepancies);
      assert verification == P.VerificationOf(q, authorized, actual, clientVerified);
      db.verifications := db.verifications + [verification];
      var committed := false;
      if verified {
        committed := CommitReservation(companyId, q);
      }
      return Ok((verification, committed));
    }
  }

  // --------------------------------------------------------------- final revalidation

  class FinalRevalidationService {
    const db: Database
    const financial: FinancialService
    const idempotency: IdempotencyService

    constructor (db: Database)
      ensures this.db == db && Valid()
    {
      this.db := db;
      financial := new FinancialService(db);
      idempotency := new IdempotencyService(db);
    }

    ghost predicate Valid() {
      financial.db == db && idempotency.db == db
    }

    method IsStale(env: P.Env, input: P.RevalidateInput, auth: P.Authority) returns (contextStale: bool)
      ensures contextStale == P.Stale(env, input, auth)
    {
      contextStale := false;
      if input.assessmentMaxAgeMs.Some? {
        if input.assessmentCreatedAt.None? || input.now - input.assessmentCreatedAt.value > input.assessmentMaxAgeMs.value {
          contextStale := true;
        }
      }
      var freshHash := env.context(P.FreshContext(env, input, auth));
      if input.decisionContextHash != "" && input.decisionContextHash != freshHash {
        contextStale := true;
      }
    }

    /** Derive the decision afresh from the rows just read. */
    method DecideNow(env: P.Env, input: P.RevalidateInput, auth: P.Authority) returns (d: D.Decision)
      ensures d == P.FreshDecision(env, input, auth)
    {
      var intentValid := input.intentIsValid && (input.intentValidUntil.None? || input.intentValidUntil.value > input.now);
      var mismatches := G.CompareProposalVsTransaction(
        input.proposal, input.analysis, input.networks, input.proposal.actionType == "PAY");
      var approval: Option<D.ApprovalState> := None;
      if R.Given(input.approvalId) {
        approval := Some(D.ResolveApprovalState(auth.approval, input.decisionContextHash, input.now));
      }
      var contextStale := IsStale(env, input, auth);
      var decisionInput := D.Input(
        false, auth.agent.Some? && auth.agent.value.active, intentValid, auth.agent.Some? && auth.capability.Some?,
        auth.hasConstitution, P.Policy(env, input, auth).status, Some(|mismatches| == 0),
        input.simulationRequired, Some(G.ClassifySimulation(input.simulation)),
        Some(G.ValidateSimulationBinding(input.simulation, input.transactionId, input.simulatedPayloadHash, P.PayloadHash(env, input))),
        contextStale, approval, Some(input.advice));
      assert decisionInput == P.DecisionInput(env, input, auth);
      d := D.Decide(decisionInput);
    }

    /** The request of the company with that key, as the lookup of the protocol finds it. */
    method FindRequest(companyId: string, key: string) returns (found: Option<P.Id>)
      requires P.OneRequestPerKey(db.requests)
      ensures found == P.FindRequest(db.World(), companyId, key)
    {
      ghost var spec := P.FindRequest(db.World(), companyId, key);
      if q :| q in db.requests && P.IsRequestFor(db.requests[q], companyId, key) {
        assert P.SameKey(db.requests[q], db.requests[spec.value]);
        return Some(q);
      }
      return None;
    }

    /** The two writes that follow a reservation: the request, and the reservation's link to it. */
    method CreateAndBind(request: P.Request, reservation: L.Id) returns (q: P.Id)
      requires reservation in db.reservations
      modifies db`requests, db`nextRequest, db`reservations
      ensures db.World() == P.Mint(old(db.World()), request, reservation) && q == old(db.nextRequest)
    {
      q := db.nextRequest;
      db.requests := db.requests[q := request];
      db.nextRequest := q + 1;
      db.reservations := db.reservations[reservation := db.reservations[reservation].(executionRequestId := Some(q))];
    }

    method ReserveAndMint(plan: P.Plan) returns (r: Result<P.Outcome>)
      requires Valid() && L.Inv(db.Ledger())
      modifies db
      ensures (db.World(), r) == P.ReserveAndMint(old(db.World()), plan)
    {
      P.ReserveMakesOne(db.Ledger(), plan.reserve);
      var reserved := financial.Reserve(plan.reserve);
      match reserved {
        case Err(POLICY_VIOLATION) => return Ok(P.Outcome(D.DENY, D.BUDGET_EXCEEDED, None, None));
        case Err(error) => return Err(error);
        case Ok(reservation) =>
          var q := CreateAndBind(plan.request, reservation);
          return Ok(P.Outcome(D.ALLOW, D.ALLOWED, Some(q), Some(reservation)));
      }
    }

    method Proceed(decision: D.Decision, plan: P.Plan) returns (r: Result<P.Outcome>)
      requires Valid() && L.Inv(db.Ledger()) && P.OneRequestPerKey(db.requests)
      modifies db
      ensures (db.World(), r) == P.Proceed(old(db.World()), decision, plan)
    {
      if decision.result != D.ALLOW {
        return Ok(P.Outcome(decision.result, decision.determinant, None, None));
      }
      var registration := idempotency.Register(P.RegistrationKey(plan.companyId, plan.key), plan.bodyHash);
      if registration.Err? { return Err(registration.error); }
      var existing := FindRequest(plan.companyId, plan.key);
      if existing.Some? {
        return Ok(P.Outcome(D.ALLOW, D.ALLOW_IDEMPOTENT, existing, None));
      }
      r := ReserveAndMint(plan);
    }

    method Revalidate(env: P.Env, input: P.RevalidateInput, auth: P.Authority) returns (r: Result<P.Outcome>)
      requires Valid() && P.Inv(db.World())
      modifies db
      ensures (db.World(), r) == P.Revalidate(env, old(db.World()), input, auth) && P.Inv(db.World())
    {
      P.RevalidateKeepsInv(env, db.World(), input, auth);
      var decision := DecideNow(env, input, auth);
      r := Proceed(decision, P.PlanOf(env, input, auth));
    }
  }
}
