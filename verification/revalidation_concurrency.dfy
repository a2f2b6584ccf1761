/**
 * The part of final revalidation after an ALLOW, split at its awaits - register, look for a
 * request, reserve, create, bind - with any number of clients interleaved with each other,
 * with executor answers and with crashes. Requests stay unique through the unique index;
 * what the split loses is that a reservation can be left without a request.
 */
module RevalidationConcurrency {
  import opened Wrappers
  import opened ExecutionProtocol
  import L = Ledger
  import I = Idempotency
  import D = DecisionEngine

  type ClientId = nat

  datatype Client =
    | Registering(plan: Plan)
    | Looking(plan: Plan)
    | Reserving(plan: Plan)
    | Creating(plan: Plan, r: L.Id)
    | Binding(plan: Plan, r: L.Id, q: Id)
    | Finished
  {
    predicate HasReservation() { Creating? || Binding? }
  }

  datatype System = System(w: World, clients: map<ClientId, Client>)

  const START := System(EMPTY, map[])

  /** Answers of the executor are whole steps of the protocol. */
  datatype Answer =
    | Ingested(companyId: string, input: ResultInput)
    | Reconciled(companyId: string, q: Id, answer: RequestStatus)
    | Verified(companyId: string, q: Id, authorized: Receipt, actual: Receipt, clientVerified: bool)

  datatype Event =
    | Begin(c: ClientId, plan: Plan)
    | Register(c: ClientId)
    | Look(c: ClientId)
    | Reserve(c: ClientId)
    | Create(c: ClientId)
    | Bind(c: ClientId)
    | Crash(c: ClientId)
    | Ensure(key: L.AccountKey, agentId: Option<string>, limit: Option<nat>)
    | Executor(answer: Answer)

  predicate Enabled(s: System, e: Event) {
    match e
    case Begin(c, plan) => c !in s.clients && Coherent(plan)
    case Register(c) => c in s.clients && s.clients[c].Registering?
    case Look(c) => c in s.clients && s.clients[c].Looking?
    case Reserve(c) => c in s.clients && s.clients[c].Reserving?
    case Create(c) => c in s.clients && s.clients[c].Creating?
    case Bind(c) => c in s.clients && s.clients[c].Binding? && s.clients[c].r in s.w.ledger.reservations
    case Crash(c) => c in s.clients
    case Ensure(_, _, _) => true
    case Executor(_) => true
  }

  ghost function Answered(w: World, a: Answer): World {
    match a
    case Ingested(companyId, input) => Ingest(w, companyId, input).0
    case Reconciled(companyId, q, answer) => Reconcile(w, companyId, q, answer).0
    case Verified(companyId, q, authorized, actual, clientVerified) => Verify(w, companyId, q, authorized, actual, clientVerified).0
  }

  function Goto(s: System, c: ClientId, next: Client): System {
    s.(clients := s.clients[c := next])
  }

  function BindRow(rs: Reservations, r: L.Id, q: Id): Reservations
    requires r in rs
  {
    rs[r := rs[r].(executionRequestId := Some(q))]
  }

  ghost function Apply(s: System, e: Event): System
    requires Enabled(s, e)
  {
    match e
    case Begin(c, plan) => Goto(s, c, Registering(plan))
    case Register(c) =>
      var plan := s.clients[c].plan;
      var (table, outcome) := I.Register(s.w.registrations, RegistrationKey(plan.companyId, plan.key), plan.bodyHash);
      Goto(s.(w := s.w.(registrations := table)), c, if outcome.Ok? then Looking(plan) else Finished)
    case Look(c) =>
      var plan := s.clients[c].plan;
      Goto(s, c, if FindRequest(s.w, plan.companyId, plan.key).Some? then Finished else Reserving(plan))
    case Reserve(c) =>
      var plan := s.clients[c].plan;
      var (ledger, reserved) := L.Reserve(s.w.ledger, plan.reserve);
      Goto(s.(w := s.w.(ledger := ledger)), c, if reserved.Ok? then Creating(plan, reserved.value) else Finished)
    case Create(c) =>
      // The unique index refuses a second request of the key; the reservation made before stays.
      var Creating(plan, r) := s.clients[c];
      if FindRequest(s.w, plan.companyId, plan.key).Some? then Goto(s, c, Finished)
      else
        var q := s.w.nextRequest;
        Goto(s.(w := s.w.(requests := s.w.requests[q := plan.request], nextRequest := q + 1)), c, Binding(plan, r, q))
    case Bind(c) =>
      var Binding(plan, r, q) := s.clients[c];
      Goto(s.(w := s.w.(ledger := s.w.ledger.(reservations := BindRow(s.w.ledger.reservations, r, q)))), c, Finished)
    case Crash(c) => s.(clients := s.clients - {c})
    case Ensure(key, agentId, limit) => s.(w := s.w.(ledger := L.EnsureAccount(s.w.ledger, key, agentId, limit).0))
    case Executor(a) => s.(w := Answered(s.w, a))
  }

  // ------------------------------------------------------------------------ invariant

  /** Bound reservations belong to a request of their company, each request has at most one, and unbound ones are held. */
  ghost predicate Bound(rs: Reservations, requests: Requests) {
    && (forall r :: r in rs ==> if rs[r].executionRequestId.Some? then BelongsTo(rs[r], requests) else rs[r].status == L.RESERVED)
    && (forall r, s, q :: Backs(rs, r, q) && Backs(rs, s, q) ==> r == s)
  }

  ghost predicate TablesOk(w: World) {
    && (forall q :: q in w.requests ==> q < w.nextRequest)
    && OneRequestPerKey(w.requests)
    && Bound(w.ledger.reservations, w.requests)
    && SpendingIsVerified(w.ledger.reservations, w.verifications)
  }

  /** A client's reservation is there and unbound; its request, once created, has no reservation yet. */
  ghost predicate ClientOk(w: World, k: Client) {
    && (!k.Finished? ==> Coherent(k.plan))
    && (k.HasReservation() ==>
          && k.r in w.ledger.reservations && w.ledger.reservations[k.r].executionRequestId.None?
          && w.ledger.reservations[k.r].companyId == k.plan.companyId)
    && (k.Binding? ==>
          && k.q in w.requests && w.requests[k.q].companyId == k.plan.companyId && !IsBacked(w.ledger.reservations, k.q))
  }

  /** Two clients never share a reservation or a request they are about to bind. */
  predicate Apart(k: Client, j: Client) {
    && (k.HasReservation() && j.HasReservation() ==> k.r != j.r)
    && (k.Binding? && j.Binding? ==> k.q != j.q)
  }

  ghost predicate ClientsOk(s: System) {
    && (forall c :: c in s.clients ==> ClientOk(s.w, s.clients[c]))
    && (forall c, d :: c in s.clients && d in s.clients && c != d ==> Apart(s.clients[c], s.clients[d]))
  }

  ghost predicate Inv(s: System) {
    L.Inv(s.w.ledger) && TablesOk(s.w) && ClientsOk(s)
  }

  // ------------------------------------------------------------------ executor answers

  /** What an executor answer may do: move bound reservations, change request statuses, add records. */
  ghost predicate OnlyAnswers(w: World, w': World) {
    && OnlyStatusesDiffer(w.ledger.reservations, w'.ledger.reservations)
    && (forall r :: r in w.ledger.reservations && w.ledger.reservations[r].executionRequestId.None? ==>
          w'.ledger.reservations[r] == w.ledger.reservations[r])
    && SameRequests(w.requests, w'.requests) && w'.nextRequest == w.nextRequest
    && SpendingIsVerified(w'.ledger.reservations, w'.verifications)
  }

  lemma SettleBoundOnlyAnswers(w: World, w1: World, op: L.Settlement, companyId: string, q: Id, statuses: set<L.Status>)
    requires L.Inv(w.ledger) && w1.ledger == w.ledger && SameRequests(w.requests, w1.requests) && w1.nextRequest == w.nextRequest
    requires SpendingIsVerified(w.ledger.reservations, w1.verifications)
    requires op == L.DoCommit ==> HasProof(w1.verifications, Some(q))
    ensures L.Inv(SettleBound(w1, op, companyId, q, statuses).ledger)
    ensures OnlyAnswers(w, SettleBound(w1, op, companyId, q, statuses))
  {
    var found := FindBound(w1, companyId, q, statuses);
    if found.Some? {
      var ledger := L.ApplySettlement(w.ledger, op, companyId, found.value).0;
      SettledLedger(w.ledger, op, companyId, found.value);
      SettlementChangesOneStatus(w.ledger, op, companyId, found.value);
      SpendingStaysVerified(w.ledger.reservations, ledger.reservations, w1.verifications);
    }
  }

  lemma MoreProofs(rs: Reservations, vs: seq<Verification>, v: Verification)
    requires SpendingIsVerified(rs, vs)
    ensures SpendingIsVerified(rs, vs + [v])
  {
    forall r | r in rs && rs[r].status == L.COMMITTED ensures HasProof(vs + [v], rs[r].executionRequestId) {
      assert HasProof(vs, rs[r].executionRequestId);
      var u :| u in vs && Proves(u, rs[r].executionRequestId.value);
      assert u in vs + [v];
    }
  }

  lemma IngestOnlyAnswers(w: World, companyId: string, input: ResultInput)
    requires L.Inv(w.ledger) && TablesOk(w)
    ensures L.Inv(Ingest(w, companyId, input).0.ledger) && OnlyAnswers(w, Ingest(w, companyId, input).0)
  {
    if Ingest(w, companyId, input).1.Ok? {
      var w1 := Recorded(w, ResultRow(input.executionId, input.status, input.chain, input.transactionHash));
      if input.status == UNKNOWN {
        SettleBoundOnlyAnswers(w, w1, L.DoMarkUnknown, companyId, input.executionId, {L.RESERVED});
      } else if input.status == FAILED {
        SettleBoundOnlyAnswers(w, w1, L.DoRelease, companyId, input.executionId, {L.RESERVED});
      }
    }
  }

  lemma ReconcileOnlyAnswers(w: World, companyId: string, q: Id, answer: RequestStatus)
    requires L.Inv(w.ledger) && TablesOk(w)
    ensures L.Inv(Reconcile(w, companyId, q, answer).0.ledger) && OnlyAnswers(w, Reconcile(w, companyId, q, answer).0)
  {
    if Known(w, companyId, q) && answer == FAILED {
      SettleBoundOnlyAnswers(w, SetStatus(w, q, FAILED), L.DoReconcileRelease, companyId, q, {L.RESERVED, L.UNKNOWN});
    }
  }

  lemma VerifyOnlyAnswers(w: World, companyId: string, q: Id, authorized: Receipt, actual: Receipt, clientVerified: bool)
    requires L.Inv(w.ledger) && TablesOk(w)
    ensures var w' := Verify(w, companyId, q, authorized, actual, clientVerified).0; L.Inv(w'.ledger) && OnlyAnswers(w, w')
  {
    if Known(w, companyId, q) {
      var v := VerificationOf(q, authorized, actual, clientVerified);
      var w1 := w.(verifications := w.verifications + [v]);
      MoreProofs(w.ledger.reservations, w.verifications, v);
      NoDiscrepancies(authorized, actual, clientVerified);
      if v.verified {
        assert v in w1.verifications && Proves(v, q);
        SettleBoundOnlyAnswers(w, w1, L.DoCommit, companyId, q, {L.RESERVED});
      }
    }
  }

  lemma AnswersOnlyAnswer(w: World, a: Answer)
    requires L.Inv(w.ledger) && TablesOk(w)
    ensures L.Inv(Answered(w, a).ledger) && OnlyAnswers(w, Answered(w, a))
  {
    match a
    case Ingested(companyId, input) => IngestOnlyAnswers(w, companyId, input);
    case Reconciled(companyId, q, answer) => ReconcileOnlyAnswers(w, companyId, q, answer);
    case Verified(companyId, q, authorized, actual, clientVerified) =>
      VerifyOnlyAnswers(w, companyId, q, authorized, actual, clientVerified);
  }

  lemma AnswersKeepBound(rs: Reservations, rs': Reservations, requests: Requests, requests': Requests)
    requires Bound(rs, requests) && OnlyStatusesDiffer(rs, rs') && SameRequests(requests, requests')
    requires forall r :: r in rs && rs[r].executionRequestId.None? ==> rs'[r] == rs[r]
    ensures Bound(rs', requests')
  {
    forall r, q ensures Backs(rs', r, q) <==> Backs(rs, r, q) {
    }
    forall r | r in rs' && rs'[r].executionRequestId.Some? ensures BelongsTo(rs'[r], requests') {
      assert BelongsTo(rs[r], requests);
    }
  }

  lemma AnswersKeepClient(w: World, w': World, k: Client)
    requires ClientOk(w, k) && OnlyAnswers(w, w')
    ensures ClientOk(w', k)
  {
    var rs, rs' := w.ledger.reservations, w'.ledger.reservations;
    forall r, q ensures Backs(rs', r, q) <==> Backs(rs, r, q) {
    }
    if k.Binding? && IsBacked(rs', k.q) {
      var r :| Backs(rs', r, k.q);
      assert Backs(rs, r, k.q);
    }
  }

  lemma SameRequestsKeepKey(requests: Requests, requests': Requests)
    requires SameRequests(requests, requests') && OneRequestPerKey(requests)
    ensures OneRequestPerKey(requests')
  {
    forall a, b | a in requests' && b in requests' && SameKey(requests'[a], requests'[b]) ensures a == b {
      assert SameKey(requests[a], requests[b]);
    }
  }

  lemma ExecutorKeepsInv(s: System, a: Answer)
    requires Inv(s)
    ensures Inv(s.(w := Answered(s.w, a)))
  {
    var w' := Answered(s.w, a);
    AnswersOnlyAnswer(s.w, a);
    AnswersKeepBound(s.w.ledger.reservations, w'.ledger.reservations, s.w.requests, w'.requests);
    SameRequestsKeepKey(s.w.requests, w'.requests);
    forall c | c in s.clients ensures ClientOk(w', s.clients[c]) {
      AnswersKeepClient(s.w, w', s.clients[c]);
    }
  }

  // --------------------------------------------------------------------- client steps

  /** The client moves on, and everything the others rely on stays. */
  lemma MovedClientsOk(s: System, w': World, c: ClientId, next: Client)
    requires ClientsOk(s) && ClientOk(w', next)
    requires forall d :: d in s.clients && d != c ==> ClientOk(w', s.clients[d]) && Apart(s.clients[d], next) && Apart(next, s.clients[d])
    ensures ClientsOk(Goto(s.(w := w'), c, next))
  {
  }

  lemma QuietStepKeepsInv(s: System, table: I.Table, c: ClientId, next: Client)
    requires Inv(s) && !next.HasReservation() && (!next.Finished? ==> Coherent(next.plan))
    ensures Inv(Goto(s.(w := s.w.(registrations := table)), c, next))
  {
    var w' := s.w.(registrations := table);
    forall d | d in s.clients && d != c ensures ClientOk(w', s.clients[d]) {
      assert ClientOk(s.w, s.clients[d]);
    }
    MovedClientsOk(s, w', c, next);
  }

  /** New rows that nobody refers to yet disturb no client. */
  lemma NewRowKeepsClient(w: World, w': World, k: Client, id: L.Id)
    requires ClientOk(w, k) && id !in w.ledger.reservations && id in w'.ledger.reservations
    requires w'.ledger.reservations == w.ledger.reservations[id := w'.ledger.reservations[id]]
    requires w'.ledger.reservations[id].executionRequestId.None? && w'.requests == w.requests
    ensures ClientOk(w', k)
  {
    if k.Binding? && IsBacked(w'.ledger.reservations, k.q) {
      var r :| Backs(w'.ledger.reservations, r, k.q);
      assert Backs(w.ledger.reservations, r, k.q);
    }
  }

  lemma NewRowKeepsBound(rs: Reservations, requests: Requests, id: L.Id, r: L.Reservation, vs: seq<Verification>)
    requires Bound(rs, requests) && SpendingIsVerified(rs, vs) && id !in rs
    requires r.executionRequestId.None? && r.status == L.RESERVED
    ensures Bound(rs[id := r], requests) && SpendingIsVerified(rs[id := r], vs)
  {
    var rs' := rs[id := r];
    forall s, q ensures Backs(rs', s, q) <==> Backs(rs, s, q) {
    }
  }

  lemma ReserveKeepsInv(s: System, c: ClientId)
    requires Inv(s) && Enabled(s, Reserve(c))
    ensures Inv(Apply(s, Reserve(c)))
  {
    var plan := s.clients[c].plan;
    var (ledger, reserved) := L.Reserve(s.w.ledger, plan.reserve);
    assert ClientOk(s.w, s.clients[c]);
    ReserveMakesOne(s.w.ledger, plan.reserve);
    ReserveResultKeepsInv(s, c, plan, ledger, reserved);
  }

  lemma ReserveResultKeepsInv(s: System, c: ClientId, plan: Plan, ledger: L.State, reserved: Result<L.Id>)
    requires Inv(s) && Coherent(plan) && L.Inv(ledger) && ReservesOne(s.w.ledger, plan.reserve, ledger, reserved)
    ensures Inv(Goto(s.(w := s.w.(ledger := ledger)), c, if reserved.Ok? then Creating(plan, reserved.value) else Finished))
  {
    if reserved.Ok? {
      ReservedKeepsInv(s, c, plan, ledger, reserved.value);
    } else {
      QuietStepKeepsInv(s, s.w.registrations, c, Finished);
    }
  }

  lemma ReservedKeepsInv(s: System, c: ClientId, plan: Plan, ledger: L.State, id: L.Id)
    requires Inv(s) && Coherent(plan) && L.Inv(ledger)
    requires ReservesOne(s.w.ledger, plan.reserve, ledger, Ok(id))
    ensures Inv(Goto(s.(w := s.w.(ledger := ledger)), c, Creating(plan, id)))
  {
    var w' := s.w.(ledger := ledger);
    NewRowKeepsBound(s.w.ledger.reservations, s.w.requests, id, ledger.reservations[id], s.w.verifications);
    forall d | d in s.clients && d != c ensures ClientOk(w', s.clients[d]) && Apart(s.clients[d], Creating(plan, id)) {
      assert ClientOk(s.w, s.clients[d]);
      NewRowKeepsClient(s.w, w', s.clients[d], id);
    }
    MovedClientsOk(s, w', c, Creating(plan, id));
  }

  lemma NewRequestKeepsTables(rs: Reservations, requests: Requests, q: Id, request: Request)
    requires Bound(rs, requests) && OneRequestPerKey(requests) && q !in requests
    requires forall p :: p in requests ==> !IsRequestFor(requests[p], request.companyId, request.idempotencyKey)
    ensures Bound(rs, requests[q := request]) && OneRequestPerKey(requests[q := request]) && !IsBacked(rs, q)
  {
    NewKeyStaysUnique(requests, q, request);
    forall r | r in rs && rs[r].executionRequestId.Some? ensures BelongsTo(rs[r], requests[q := request]) && !Backs(rs, r, q) {
      assert BelongsTo(rs[r], requests);
    }
  }

  lemma CreateKeepsInv(s: System, c: ClientId)
    requires Inv(s) && Enabled(s, Create(c))
    ensures Inv(Apply(s, Create(c)))
  {
    var Creating(plan, r) := s.clients[c];
    assert ClientOk(s.w, s.clients[c]);
    if FindRequest(s.w, plan.companyId, plan.key).Some? {
      QuietStepKeepsInv(s, s.w.registrations, c, Finished);
    } else {
      var q := s.w.nextRequest;
      var w' := s.w.(requests := s.w.requests[q := plan.request], nextRequest := q + 1);
      NewRequestKeepsTables(s.w.ledger.reservations, s.w.requests, q, plan.request);
      forall d | d in s.clients && d != c
        ensures ClientOk(w', s.clients[d]) && Apart(s.clients[d], Binding(plan, r, q)) && Apart(Binding(plan, r, q), s.clients[d])
      {
        assert ClientOk(s.w, s.clients[d]) && Apart(s.clients[d], s.clients[c]);
      }
      MovedClientsOk(s, w', c, Binding(plan, r, q));
    }
  }

  lemma BindingKeepsBound(rs: Reservations, requests: Requests, r: L.Id, q: Id, vs: seq<Verification>)
    requires Bound(rs, requests) && SpendingIsVerified(rs, vs) && r in rs && rs[r].executionRequestId.None?
    requires q in requests && requests[q].companyId == rs[r].companyId && !IsBacked(rs, q)
    ensures Bound(BindRow(rs, r, q), requests) && SpendingIsVerified(BindRow(rs, r, q), vs)
  {
    var rs' := BindRow(rs, r, q);
    forall s, p ensures Backs(rs', s, p) <==> Backs(rs, s, p) || (s == r && p == q) {
    }
    forall s ensures !Backs(rs, s, q) {
    }
  }

  lemma BindKeepsOther(w: World, w': World, k: Client, r: L.Id, q: Id)
    requires ClientOk(w, k) && r in w.ledger.reservations && w.ledger.reservations[r].executionRequestId.None?
    requires w'.ledger.reservations == BindRow(w.ledger.reservations, r, q) && w'.requests == w.requests
    requires (k.HasReservation() ==> k.r != r) && (k.Binding? ==> k.q != q)
    ensures ClientOk(w', k)
  {
    if k.Binding? && IsBacked(w'.ledger.reservations, k.q) {
      var s :| Backs(w'.ledger.reservations, s, k.q);
      assert Backs(w.ledger.reservations, s, k.q);
    }
  }

  lemma BindKeepsInv(s: System, c: ClientId)
    requires Inv(s) && Enabled(s, Bind(c))
    ensures Inv(Apply(s, Bind(c)))
  {
    var Binding(plan, r, q) := s.clients[c];
    var rs := s.w.ledger.reservations;
    var w' := s.w.(ledger := s.w.ledger.(reservations := BindRow(rs, r, q)));
    assert ClientOk(s.w, s.clients[c]);
    BindKeepsLedger(s.w.ledger, r, q);
    BindingKeepsBound(rs, s.w.requests, r, q, s.w.verifications);
    forall d | d in s.clients && d != c ensures ClientOk(w', s.clients[d]) {
      assert Apart(s.clients[d], s.clients[c]) && ClientOk(s.w, s.clients[d]);
      BindKeepsOther(s.w, w', s.clients[d], r, q);
    }
    MovedClientsOk(s, w', c, Finished);
  }

  lemma EnsureKeepsSystem(s: System, key: L.AccountKey, agentId: Option<string>, limit: Option<nat>)
    requires Inv(s)
    ensures Inv(s.(w := s.w.(ledger := L.EnsureAccount(s.w.ledger, key, agentId, limit).0)))
  {
    L.EnsureKeepsInv(s.w.ledger, key, agentId, limit);
    var w' := s.w.(ledger := L.EnsureAccount(s.w.ledger, key, agentId, limit).0);
    forall c | c in s.clients ensures ClientOk(w', s.clients[c]) {
      assert ClientOk(s.w, s.clients[c]);
    }
  }

  lemma RegisterKeepsInv(s: System, c: ClientId)
    requires Inv(s) && Enabled(s, Register(c))
    ensures Inv(Apply(s, Register(c)))
  {
    var plan := s.clients[c].plan;
    assert ClientOk(s.w, s.clients[c]);
    var (table, outcome) := I.Register(s.w.registrations, RegistrationKey(plan.companyId, plan.key), plan.bodyHash);
    QuietStepKeepsInv(s, table, c, if outcome.Ok? then Looking(plan) else Finished);
  }

  lemma LookKeepsInv(s: System, c: ClientId)
    requires Inv(s) && Enabled(s, Look(c))
    ensures Inv(Apply(s, Look(c)))
  {
    var plan := s.clients[c].plan;
    assert ClientOk(s.w, s.clients[c]);
    QuietStepKeepsInv(s, s.w.registrations, c, if FindRequest(s.w, plan.companyId, plan.key).Some? then Finished else Reserving(plan));
  }

  lemma ApplyKeepsInv(s: System, e: Event)
    requires Inv(s) && Enabled(s, e)
    ensures Inv(Apply(s, e))
  {
    match e
    case Begin(c, plan) => QuietStepKeepsInv(s, s.w.registrations, c, Registering(plan));
    case Register(c) => RegisterKeepsInv(s, c);
    case Look(c) => LookKeepsInv(s, c);
    case Reserve(c) => ReserveKeepsInv(s, c);
    case Create(c) => CreateKeepsInv(s, c);
    case Bind(c) => BindKeepsInv(s, c);
    case Crash(_) =>
    case Ensure(key, agentId, limit) => EnsureKeepsSystem(s, key, agentId, limit);
    case Executor(a) => ExecutorKeepsInv(s, a);
  }

  // ----------------------------------------------------------------------------- runs

  ghost predicate Legal(s: System, events: seq<Event>)
    decreases |events|
  {
    events == [] || (Enabled(s, events[0]) && Legal(Apply(s, events[0]), events[1..]))
  }

  ghost function Run(s: System, events: seq<Event>): System
    requires Legal(s, events)
    decreases |events|
  {
    if events == [] then s else Run(Apply(s, events[0]), events[1..])
  }

  lemma {:induction false} RunKeepsInv(s: System, events: seq<Event>)
    requires Inv(s) && Legal(s, events)
    ensures Inv(Run(s, events))
    decreases |events|
  {
    if events != [] {
      ApplyKeepsInv(s, events[0]);
      RunKeepsInv(Apply(s, events[0]), events[1..]);
    }
  }

  /**
   * In every interleaving of any number of clients, crashes and executor answers: one
   * request per company and key, at most one reservation for each, totals equal to the
   * sums and within the limits, and spent money only with a verified record.
   */
  lemma {:induction false} InterleavedRequestsStayUnique(events: seq<Event>)
    requires Legal(START, events)
    ensures var w := Run(START, events).w;
      && (forall p, q :: p in w.requests && q in w.requests && SameKey(w.requests[p], w.requests[q]) ==> p == q)
      && (forall r, s :: r in w.ledger.reservations && s in w.ledger.reservations && r != s ==>
            w.ledger.reservations[r].executionRequestId.None?
            || w.ledger.reservations[r].executionRequestId != w.ledger.reservations[s].executionRequestId)
      && (forall a :: a in w.ledger.accounts ==> L.Balanced(w.ledger, a) && L.WithinLimit(w.ledger.accounts[a]))
      && (forall r :: r in w.ledger.reservations && w.ledger.reservations[r].status == L.COMMITTED ==>
            HasProof(w.verifications, w.ledger.reservations[r].executionRequestId))
  {
    RunKeepsInv(START, events);
    var rs := Run(START, events).w.ledger.reservations;
    forall r, s | r in rs && s in rs && r != s && rs[r].executionRequestId.Some?
      ensures rs[r].executionRequestId != rs[s].executionRequestId
    {
      var q := rs[r].executionRequestId.value;
      assert Backs(rs, r, q);
      assert !Backs(rs, s, q);
    }
  }

  ghost predicate NoCrash(events: seq<Event>) {
    forall i :: 0 <= i < |events| ==> !events[i].Crash?
  }

  // -------------------------------------------------------------- what a step does to rows

  /** Bound rows keep all but their status, unbound ones everything unless their own client binds them, and a new row is its client's. */
  ghost predicate RowsMove(s: System, e: Event, t: System) {
    var rs, rs' := s.w.ledger.reservations, t.w.ledger.reservations;
    && (forall r :: r in rs ==> r in rs')
    && (forall r :: r in rs && rs[r].executionRequestId.Some? ==> rs'[r] == rs[r].(status := rs'[r].status))
    && (forall r :: r in rs && rs[r].executionRequestId.None? && !IsBindOf(s, e, r) ==> rs'[r] == rs[r])
    && (forall r :: r in rs' && r !in rs ==> e.Reserve? && e.c in t.clients && Holds(t.clients[e.c], r))
  }

  predicate IsBindOf(s: System, e: Event, r: L.Id) {
    e.Bind? && e.c in s.clients && Holds(s.clients[e.c], r)
  }

  predicate Holds(k: Client, r: L.Id) {
    k.HasReservation() && k.r == r
  }

  lemma UnchangedRowsMove(s: System, e: Event, t: System)
    requires t.w.ledger.reservations == s.w.ledger.reservations
    ensures RowsMove(s, e, t)
  {
  }

  lemma BindMovesRows(s: System, c: ClientId)
    requires Enabled(s, Bind(c))
    ensures RowsMove(s, Bind(c), Apply(s, Bind(c))) || s.w.ledger.reservations[s.clients[c].r].executionRequestId.Some?
  {
  }

  lemma ExecutorMovesRows(s: System, a: Answer)
    requires Inv(s)
    ensures RowsMove(s, Executor(a), s.(w := Answered(s.w, a)))
  {
    AnswersOnlyAnswer(s.w, a);
  }

  lemma StepMovesRows(s: System, e: Event)
    requires Inv(s) && Enabled(s, e)
    ensures RowsMove(s, e, Apply(s, e))
  {
    match e
    case Reserve(c) => ReserveMovesRows(s, c);
    case Executor(a) => ExecutorMovesRows(s, a);
    case Bind(c) =>
      assert ClientOk(s.w, s.clients[c]);
      BindMovesRows(s, c);
    case _ => UnchangedRowsMove(s, e, Apply(s, e));
  }

  lemma ReserveMovesRows(s: System, c: ClientId)
    requires Inv(s) && Enabled(s, Reserve(c))
    ensures RowsMove(s, Reserve(c), Apply(s, Reserve(c)))
  {
    var plan := s.clients[c].plan;
    var (ledger, reserved) := L.Reserve(s.w.ledger, plan.reserve);
    ReserveMakesOne(s.w.ledger, plan.reserve);
    ReservedMovesRows(s, c, plan, ledger, reserved);
  }

  lemma ReservedMovesRows(s: System, c: ClientId, plan: Plan, ledger: L.State, reserved: Result<L.Id>)
    requires ReservesOne(s.w.ledger, plan.reserve, ledger, reserved)
    ensures RowsMove(s, Reserve(c),
      Goto(s.(w := s.w.(ledger := ledger)), c, if reserved.Ok? then Creating(plan, reserved.value) else Finished))
  {
  }

  // ------------------------------------------------------------------ requests are backed

  /** The request has its reservation, or the client that created it is about to bind it. */
  ghost predicate Claimed(s: System, q: Id) {
    IsBacked(s.w.ledger.reservations, q) || IsClaimed(s, q)
  }

  ghost predicate IsClaimed(s: System, q: Id) {
    exists c :: Claims(s, c, q)
  }

  predicate Claims(s: System, c: ClientId, q: Id) {
    c in s.clients && s.clients[c].Binding? && s.clients[c].q == q
  }

  lemma BackingStays(s: System, e: Event, t: System, q: Id)
    requires RowsMove(s, e, t) && IsBacked(s.w.ledger.reservations, q)
    ensures IsBacked(t.w.ledger.reservations, q)
  {
    var r :| Backs(s.w.ledger.reservations, r, q);
    assert Backs(t.w.ledger.reservations, r, q);
  }

  lemma ClaimStays(s: System, e: Event, c: ClientId, q: Id)
    requires Inv(s) && Enabled(s, e) && Claims(s, c, q) && e != Crash(c)
    ensures Claimed(Apply(s, e), q)
  {
    if e == Bind(c) {
      assert Backs(Apply(s, e).w.ledger.reservations, s.clients[c].r, q);
    } else {
      assert Claims(Apply(s, e), c, q);
    }
  }

  lemma NewRequestIsClaimed(s: System, e: Event, q: Id)
    requires Inv(s) && Enabled(s, e) && q !in s.w.requests && q in Apply(s, e).w.requests
    ensures Claimed(Apply(s, e), q)
  {
    match e
    case Create(c) => assert Claims(Apply(s, e), c, q);
    case Executor(a) => AnswersOnlyAnswer(s.w, a);
    case _ =>
  }

  ghost predicate AllClaimed(s: System) {
    forall q :: q in s.w.requests ==> Claimed(s, q)
  }

  lemma {:induction false} RequestsStayClaimed(s: System, events: seq<Event>)
    requires Inv(s) && Legal(s, events) && AllClaimed(s)
    requires NoCrash(events)
    ensures AllClaimed(Run(s, events))
    decreases |events|
  {
    if events != [] {
      var e, t := events[0], Apply(s, events[0]);
      ApplyKeepsInv(s, e);
      forall q | q in t.w.requests ensures Claimed(t, q) {
        if q !in s.w.requests {
          NewRequestIsClaimed(s, e, q);
        } else if IsBacked(s.w.ledger.reservations, q) {
          StepMovesRows(s, e);
          BackingStays(s, e, t, q);
        } else {
          var c :| Claims(s, c, q);
          ClaimStays(s, e, c, q);
        }
      }
      RequestsStayClaimed(t, events[1..]);
    }
  }

  /** Without crashes, every request is backed as soon as no client is in the middle of binding. */
  lemma {:induction false} SettledRequestsAreBacked(events: seq<Event>)
    requires Legal(START, events) && NoCrash(events)
    requires forall c :: c in Run(START, events).clients ==> !Run(START, events).clients[c].Binding?
    ensures var w := Run(START, events).w; forall q :: q in w.requests ==> IsBacked(w.ledger.reservations, q)
  {
    RequestsStayClaimed(START, events);
    var t := Run(START, events);
    forall q | q in t.w.requests ensures IsBacked(t.w.ledger.reservations, q) {
      assert Claimed(t, q);
      assert forall c :: !Claims(t, c, q);
    }
  }

  // ------------------------------------------------------------------------- lost holds

  /** A held reservation that no request names and no client will bind. */
  ghost predicate Orphan(s: System, r: L.Id) {
    && r in s.w.ledger.reservations && s.w.ledger.reservations[r].executionRequestId.None?
    && forall c :: c in s.clients ==> !Holds(s.clients[c], r)
  }

  /** The event makes a client let go of the reservation: its create lost the race, or it crashed. */
  ghost predicate Drops(s: System, e: Event, r: L.Id) {
    match e
    case Create(c) =>
      c in s.clients && Holds(s.clients[c], r) && FindRequest(s.w, s.clients[c].plan.companyId, s.clients[c].plan.key).Some?
    case Crash(c) => c in s.clients && Holds(s.clients[c], r)
    case _ => false
  }

  /** A reserving client comes to hold a new row only. */
  lemma ReservedRowIsNew(s: System, c: ClientId, r: L.Id)
    requires Inv(s) && Enabled(s, Reserve(c)) && Holds(Apply(s, Reserve(c)).clients[c], r)
    ensures r !in s.w.ledger.reservations
  {
    ReserveMakesOne(s.w.ledger, s.clients[c].plan.reserve);
  }

  /** No client comes to hold a row that is there already and that it did not hold. */
  lemma HoldersAreOld(s: System, e: Event, c: ClientId, r: L.Id)
    requires Inv(s) && Enabled(s, e) && c in Apply(s, e).clients && Holds(Apply(s, e).clients[c], r) && r in s.w.ledger.reservations
    ensures c in s.clients && Holds(s.clients[c], r)
  {
    if e == Reserve(c) {
      ReservedRowIsNew(s, c, r);
    } else {
      OthersKeepTheirs(s, e, c, r);
    }
  }

  lemma OthersKeepTheirs(s: System, e: Event, c: ClientId, r: L.Id)
    requires Enabled(s, e) && e != Reserve(c) && c in Apply(s, e).clients && Holds(Apply(s, e).clients[c], r)
    ensures c in s.clients && Holds(s.clients[c], r)
  {
  }

  lemma OrphanStaysOneStep(s: System, e: Event, r: L.Id)
    requires Inv(s) && Enabled(s, e) && Orphan(s, r)
    ensures Orphan(Apply(s, e), r) && Apply(s, e).w.ledger.reservations[r] == s.w.ledger.reservations[r]
  {
    var t := Apply(s, e);
    StepMovesRows(s, e);
    assert !IsBindOf(s, e, r);
    forall c | c in t.clients ensures !Holds(t.clients[c], r) {
      if Holds(t.clients[c], r) {
        HoldersAreOld(s, e, c, r);
      }
    }
  }

  /** A lost hold is lost for good: it keeps its budget in every continuation, whatever the executor answers. */
  lemma {:induction false} OrphansAreForEver(s: System, events: seq<Event>, r: L.Id)
    requires Inv(s) && Legal(s, events) && Orphan(s, r)
    ensures var t := Run(s, events); var row := s.w.ledger.reservations[r];
      && Orphan(t, r) && t.w.ledger.reservations[r] == row && row.status == L.RESERVED
      && row.accountId in t.w.ledger.accounts && t.w.ledger.accounts[row.accountId].reserved >= row.amount
    decreases |events|
  {
    if events == [] {
      L.StepHoldsAmount(s.w.ledger, r);
    } else {
      ApplyKeepsInv(s, events[0]);
      OrphanStaysOneStep(s, events[0], r);
      OrphansAreForEver(Apply(s, events[0]), events[1..], r);
    }
  }

  lemma DroppedIsOrphan(s: System, e: Event, r: L.Id)
    requires Inv(s) && Enabled(s, e) && Drops(s, e, r)
    ensures Orphan(Apply(s, e), r)
  {
    assert ClientOk(s.w, s.clients[e.c]);
    forall d | d in s.clients && d != e.c ensures !Holds(s.clients[d], r) {
      assert Apart(s.clients[d], s.clients[e.c]);
    }
  }

  /** A client lets go of its reservation only by dropping it or by binding it. */
  lemma HolderKeepsOrDrops(s: System, e: Event, c: ClientId, r: L.Id)
    requires Inv(s) && Enabled(s, e) && c in s.clients && Holds(s.clients[c], r)
    ensures var t := Apply(s, e);
      || Drops(s, e, r) || (c in t.clients && Holds(t.clients[c], r))
      || (r in t.w.ledger.reservations && t.w.ledger.reservations[r].executionRequestId.Some?)
  {
  }

  lemma OrphanWasDropped(s: System, e: Event, r: L.Id)
    requires Inv(s) && Enabled(s, e) && !Orphan(s, r) && Orphan(Apply(s, e), r)
    ensures Drops(s, e, r)
  {
    StepMovesRows(s, e);
    if r in s.w.ledger.reservations && s.w.ledger.reservations[r].executionRequestId.None? {
      var c :| c in s.clients && Holds(s.clients[c], r);
      HolderKeepsOrDrops(s, e, c, r);
    }
  }

  /** A hold is lost in exactly two ways: its client loses the race to create the request, or crashes before it has bound it. */
  lemma HoldsAreLostExactlyWhenDropped(s: System, e: Event, r: L.Id)
    requires Inv(s) && Enabled(s, e) && !Orphan(s, r)
    ensures Orphan(Apply(s, e), r) <==> Drops(s, e, r)
  {
    if Drops(s, e, r) {
      DroppedIsOrphan(s, e, r);
    }
    if Orphan(Apply(s, e), r) {
      OrphanWasDropped(s, e, r);
    }
  }

  /** Whenever two clients have reserved for one key, the second to create its request loses its hold. */
  lemma TwoReservedOneLost(s: System, c: ClientId, d: ClientId)
    requires Inv(s) && c != d && c in s.clients && d in s.clients && s.clients[c].Creating? && s.clients[d].Creating?
    requires SameKey(s.clients[c].plan.request, s.clients[d].plan.request)
    requires FindRequest(s.w, s.clients[c].plan.companyId, s.clients[c].plan.key).None?
    ensures var t := Apply(s, Create(c)); d in t.clients && t.clients[d].Creating? && Orphan(Apply(t, Create(d)), s.clients[d].r)
  {
    var plan := s.clients[d].plan;
    var t := Apply(s, Create(c));
    assert ClientOk(s.w, s.clients[c]) && ClientOk(s.w, s.clients[d]);
    ApplyKeepsInv(s, Create(c));
    assert IsRequestFor(t.w.requests[s.w.nextRequest], plan.companyId, plan.key);
    assert Drops(t, Create(d), s.clients[d].r);
    DroppedIsOrphan(t, Create(d), s.clients[d].r);
  }

  lemma {:induction false} Extend(s: System, events: seq<Event>, e: Event)
    requires Legal(s, events) && Enabled(Run(s, events), e)
    ensures Legal(s, events + [e]) && Run(s, events + [e]) == Apply(Run(s, events), e)
    decreases |events|
  {
    if events == [] {
      assert [e][1..] == [];
      assert Legal(Apply(s, e), []);
    } else {
      assert (events + [e])[1..] == events[1..] + [e];
      Extend(Apply(s, events[0]), events[1..], e);
    }
  }

  /** Two clients that start with one plan can both get past the lookup. */
  lemma BothPassTheLookup(plan: Plan) returns (events: seq<Event>)
    requires Coherent(plan)
    ensures Legal(START, events) && NoCrash(events)
    ensures Run(START, events).clients == map[0 := Reserving(plan), 1 := Reserving(plan)]
    ensures Run(START, events).w.ledger == L.EMPTY && Run(START, events).w.requests == map[]
  {
    events := [];
    var s1 := Apply(START, Begin(0, plan));
    Extend(START, events, Begin(0, plan));
    events := events + [Begin(0, plan)];
    var s2 := Apply(s1, Begin(1, plan));
    Extend(START, events, Begin(1, plan));
    events := events + [Begin(1, plan)];
    assert s2.clients == map[0 := Registering(plan), 1 := Registering(plan)] && s2.w == EMPTY;
    var s3 := Apply(s2, Register(0));
    Extend(START, events, Register(0));
    events := events + [Register(0)];
    assert s3.clients == map[0 := Looking(plan), 1 := Registering(plan)];
    var s4 := Apply(s3, Register(1));
    Extend(START, events, Register(1));
    events := events + [Register(1)];
    assert s4.clients == map[0 := Looking(plan), 1 := Looking(plan)] && s4.w.requests == map[] && s4.w.ledger == L.EMPTY;
    var s5 := Apply(s4, Look(0));
    Extend(START, events, Look(0));
    events := events + [Look(0)];
    assert s5.clients == map[0 := Reserving(plan), 1 := Looking(plan)] && s5.w == s4.w;
    var s6 := Apply(s5, Look(1));
    Extend(START, events, Look(1));
    events := events + [Look(1)];
    assert s6.clients == map[0 := Reserving(plan), 1 := Reserving(plan)];
  }

  /** No account has a limit, so everything fits. */
  lemma UnlimitedFits(s: L.State, input: L.ReserveInput)
    requires L.Inv(s) && forall a :: a in s.accounts ==> s.accounts[a].limit.None?
    ensures L.Reserve(s, input).1.Ok?
    ensures forall a :: a in L.Reserve(s, input).0.accounts ==> L.Reserve(s, input).0.accounts[a].limit.None?
  {
    ReserveMakesOne(s, input);
  }

  ghost predicate Unlimited(s: L.State) {
    forall a :: a in s.accounts ==> s.accounts[a].limit.None?
  }

  lemma ReserveSucceeds(s: System, c: ClientId)
    requires Inv(s) && Enabled(s, Reserve(c)) && Unlimited(s.w.ledger)
    ensures var t := Apply(s, Reserve(c));
      && Inv(t) && Unlimited(t.w.ledger) && t.w.requests == s.w.requests
      && c in t.clients && t.clients[c].Creating? && t.clients[c].plan == s.clients[c].plan
      && forall d :: d in s.clients && d != c ==> d in t.clients && t.clients[d] == s.clients[d]
  {
    ApplyKeepsInv(s, Reserve(c));
    UnlimitedFits(s.w.ledger, s.clients[c].plan.reserve);
  }

  /** Client `c` reserves after the events. */
  lemma ReserveNext(events: seq<Event>, c: ClientId) returns (longer: seq<Event>)
    requires Legal(START, events) && NoCrash(events)
    requires var s := Run(START, events); Inv(s) && Enabled(s, Reserve(c)) && Unlimited(s.w.ledger)
    ensures Legal(START, longer) && NoCrash(longer)
    ensures Run(START, longer) == Apply(Run(START, events), Reserve(c))
  {
    longer := events + [Reserve(c)];
    Extend(START, events, Reserve(c));
  }

  /** Both clients have reserved with the plan, and nobody has a request. */
  ghost predicate BothHold(s: System, plan: Plan) {
    && Inv(s) && s.w.requests == map[]
    && 0 in s.clients && 1 in s.clients && s.clients[0].Creating? && s.clients[1].Creating?
    && s.clients[0].plan == plan && s.clients[1].plan == plan
  }

  lemma TwoReserves(s: System, plan: Plan)
    requires Inv(s) && Unlimited(s.w.ledger) && s.w.requests == map[]
    requires s.clients == map[0 := Reserving(plan), 1 := Reserving(plan)]
    ensures var t := Apply(s, Reserve(0));
      Inv(t) && Unlimited(t.w.ledger) && Enabled(t, Reserve(1)) && BothHold(Apply(t, Reserve(1)), plan)
  {
    ReserveSucceeds(s, 0);
    ReserveSucceeds(Apply(s, Reserve(0)), 1);
  }

  lemma BothReserve(plan: Plan) returns (events: seq<Event>)
    requires Coherent(plan)
    ensures Legal(START, events) && NoCrash(events) && BothHold(Run(START, events), plan)
  {
    events := BothPassTheLookup(plan);
    RunKeepsInv(START, events);
    TwoReserves(Run(START, events), plan);
    events := ReserveNext(events, 0);
    events := ReserveNext(events, 1);
  }

  /** So a hold can be lost without any crash, for every plan. */
  lemma RaceCanLoseAHold(plan: Plan)
    requires Coherent(plan)
    ensures exists events, r :: Legal(START, events) && NoCrash(events) && Orphan(Run(START, events), r)
  {
    var events := BothReserve(plan);
    var s := Run(START, events);
    TwoReservedOneLost(s, 0, 1);
    Extend(START, events, Create(0));
    events := events + [Create(0)];
    Extend(START, events, Create(1));
    events := events + [Create(1)];
    assert Orphan(Run(START, events), s.clients[1].r);
  }

  // -------------------------------------------------------------- a call on its own

  /** A client whose events nothing interrupts does what an allowed call does in one step. */
  lemma AloneIsProceed(w: World, decision: D.Decision, plan: Plan) returns (events: seq<Event>)
    requires ExecutionProtocol.Inv(w) && Coherent(plan) && decision.result == D.ALLOW
    ensures Legal(System(w, map[]), events)
    ensures Run(System(w, map[]), events) == System(Proceed(w, decision, plan).0, map[0 := Finished])
  {
    var start := System(w, map[]);
    var (table, outcome) := I.Register(w.registrations, RegistrationKey(plan.companyId, plan.key), plan.bodyHash);
    events := AloneToRegister(w, plan, table, outcome);
    if outcome.Ok? {
      ProceedsAfterRegister(w, decision, plan, table);
      events := AloneFromLook(w.(registrations := table), plan, start, events);
    }
  }

  lemma AloneToRegister(w: World, plan: Plan, table: I.Table, outcome: Result<I.Outcome>) returns (events: seq<Event>)
    requires Coherent(plan) && (table, outcome) == I.Register(w.registrations, RegistrationKey(plan.companyId, plan.key), plan.bodyHash)
    ensures Legal(System(w, map[]), events)
    ensures Run(System(w, map[]), events) == System(w.(registrations := table), map[0 := if outcome.Ok? then Looking(plan) else Finished])
  {
    var start := System(w, map[]);
    Extend(start, [], Begin(0, plan));
    events := [] + [Begin(0, plan)];
    Extend(start, events, Register(0));
    events := events + [Register(0)];
  }

  /** What is left of an allowed call once it is registered. */
  ghost function Continued(w: World, plan: Plan): World {
    if FindRequest(w, plan.companyId, plan.key).Some? then w else ReserveAndMint(w, plan).0
  }

  lemma ProceedsAfterRegister(w: World, decision: D.Decision, plan: Plan, table: I.Table)
    requires decision.result == D.ALLOW
    requires var (t, outcome) := I.Register(w.registrations, RegistrationKey(plan.companyId, plan.key), plan.bodyHash);
      outcome.Ok? && t == table
    ensures Proceed(w, decision, plan).0 == Continued(w.(registrations := table), plan)
  {
  }

  lemma AloneFromLook(w: World, plan: Plan, start: System, before: seq<Event>) returns (events: seq<Event>)
    requires L.Inv(w.ledger) && Legal(start, before) && Run(start, before) == System(w, map[0 := Looking(plan)])
    ensures Legal(start, events) && Run(start, events) == System(Continued(w, plan), map[0 := Finished])
  {
    Extend(start, before, Look(0));
    events := before + [Look(0)];
    if FindRequest(w, plan.companyId, plan.key).None? {
      events := AloneToReserve(w, plan, start, events);
    }
  }

  lemma AloneToReserve(w: World, plan: Plan, start: System, before: seq<Event>) returns (events: seq<Event>)
    requires L.Inv(w.ledger) && FindRequest(w, plan.companyId, plan.key).None?
    requires Legal(start, before) && Run(start, before) == System(w, map[0 := Reserving(plan)])
    ensures Legal(start, events) && Run(start, events) == System(ReserveAndMint(w, plan).0, map[0 := Finished])
  {
    var (ledger, reserved) := L.Reserve(w.ledger, plan.reserve);
    ReserveMakesOne(w.ledger, plan.reserve);
    events := AloneFromReserve(w, plan, ledger, reserved, start, before);
  }

  lemma AloneFromReserve(w: World, plan: Plan, ledger: L.State, reserved: Result<L.Id>, start: System, before: seq<Event>)
    returns (events: seq<Event>)
    requires L.Reserve(w.ledger, plan.reserve) == (ledger, reserved) && ReservesOne(w.ledger, plan.reserve, ledger, reserved)
    requires FindRequest(w, plan.companyId, plan.key).None?
    requires Legal(start, before) && Run(start, before) == System(w, map[0 := Reserving(plan)])
    ensures Legal(start, events) && Run(start, events) == System(Finish(w, ledger, reserved, plan).0, map[0 := Finished])
  {
    Extend(start, before, Reserve(0));
    events := before + [Reserve(0)];
    if reserved.Ok? {
      events := AloneFromCreate(w.(ledger := ledger), plan, reserved.value, start, events);
    }
  }

  lemma AloneFromCreate(w: World, plan: Plan, r: L.Id, start: System, before: seq<Event>) returns (events: seq<Event>)
    requires r in w.ledger.reservations && FindRequest(w, plan.companyId, plan.key).None?
    requires Legal(start, before) && Run(start, before) == System(w, map[0 := Creating(plan, r)])
    ensures Legal(start, events) && Run(start, events) == System(Mint(w, plan.request, r), map[0 := Finished])
  {
    Extend(start, before, Create(0));
    events := before + [Create(0)];
    Extend(start, events, Bind(0));
    events := events + [Bind(0)];
  }
}
