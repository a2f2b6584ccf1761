/**
 * The execution pipeline with any number of calls in flight. A call looks its key up, waits
 * for chain check and simulation, waits for the signer, records, and waits for the receipt;
 * other calls run in between, on the same store. What happens between two waits is one move.
 *
 * The main theorem says when a key is broadcast twice: if and only if some call passes the
 * lookup while another one for the key has passed it and not recorded yet.
 */
module PipelineConcurrency {
  import opened Wrappers
  import opened Transactions
  import opened ExecutionPipeline
  import X = ExecutionPipeline

  // ------------------------------------------------------------------ what a call does

  /**
   * What a call does once it is past the lookup, apart from when: it is blocked by a check,
   * or it asks the signer (unless the sender check stops that), records, and, if a hash came
   * back, waits for the receipt. All of it is fixed by the call and its answers.
   */
  datatype Plan =
    | Blocked(key: string)
    | Ready(key: string, sending: Option<Broadcast>, record: Record, receipt: Option<Result<ExecutionResult>>)

  function PlanOf(cfg: Config, call: Call): Plan {
    match Prepare(cfg, call)
    case Err(_) => Blocked(call.request.idempotencyKey)
    case Ok(tx) => ReadyPlan(cfg, call, tx, call.answers.simulation.value)
  }

  function ReadyPlan(cfg: Config, call: Call, tx: TransactionRequest, simulated: Simulation): Plan {
    var r := call.request;
    var submission := SubmissionOf(cfg, tx, call.answers.submit);
    var hash := if submission.Submitted? then Some(submission.hash) else None;
    var status := if submission.Submitted? then PENDING else if submission.Threw? then UNKNOWN else FAILED;
    Ready(
      r.idempotencyKey,
      if SenderMatches(cfg, tx) then Some(Broadcast(r.idempotencyKey, r.executionId, tx, call.expectation, simulated, hash)) else None,
      NewRecord(r, MkResult(r, status, hash), call.expectation),
      if submission.Submitted? then Some(Outcome(call, submission.hash)) else None)
  }

  // ------------------------------------------------------------------------ the system

  type ClientId = nat

  datatype Client = Preparing(plan: Plan) | Submitting(plan: Plan) | Recording(plan: Plan) | Waiting(plan: Plan)

  datatype System = System(state: X.State, clients: map<ClientId, Client>)

  const START := System(X.START, map[])

  datatype Move =
    | Look(c: ClientId, call: Call)
    | Check(c: ClientId)
    | Submit(c: ClientId)
    | Note(c: ClientId)
    | Receive(c: ClientId)

  predicate Enabled(s: System, m: Move) {
    match m
    case Look(c, _) => c !in s.clients
    case Check(c) => c in s.clients && s.clients[c].Preparing?
    case Submit(c) => c in s.clients && s.clients[c].Submitting? && s.clients[c].plan.Ready?
    case Note(c) => c in s.clients && s.clients[c].Recording? && s.clients[c].plan.Ready?
    case Receive(c) => c in s.clients && s.clients[c].Waiting? && s.clients[c].plan.Ready?
  }

  function Leave(s: System, c: ClientId): System {
    s.(clients := s.clients - {c})
  }

  /** The lookup: a found record answers the call at once. */
  function Admit(s: System, c: ClientId, plan: Plan): System {
    if ByKey(s.state.store, plan.key).Some? then s else s.(clients := s.clients[c := Preparing(plan)])
  }

  function Sending(plan: Plan): seq<Broadcast>
    requires plan.Ready?
  {
    if plan.sending.Some? then [plan.sending.value] else []
  }

  function Received(store: Store, plan: Plan): Store
    requires plan.Ready?
  {
    if plan.receipt.Some? && plan.receipt.value.Ok? then SetResult(store, plan.record.executionId, plan.receipt.value.value) else store
  }

  function Apply(cfg: Config, s: System, m: Move): System
    requires Enabled(s, m)
  {
    match m
    case Look(c, call) => Admit(s, c, PlanOf(cfg, call))
    case Check(c) =>
      var plan := s.clients[c].plan;
      if plan.Blocked? then Leave(s, c) else s.(clients := s.clients[c := Submitting(plan)])
    case Submit(c) =>
      var plan := s.clients[c].plan;
      System(s.state.(sent := s.state.sent + Sending(plan)), s.clients[c := Recording(plan)])
    case Note(c) =>
      var plan := s.clients[c].plan;
      System(s.state.(store := Put(s.state.store, plan.record)),
             if plan.receipt.Some? then s.clients[c := Waiting(plan)] else s.clients - {c})
    case Receive(c) =>
      Leave(s, c).(state := s.state.(store := Received(s.state.store, s.clients[c].plan)))
  }

  ghost predicate Legal(cfg: Config, s: System, moves: seq<Move>)
    decreases |moves|
  {
    moves == [] || (Enabled(s, moves[0]) && Legal(cfg, Apply(cfg, s, moves[0]), moves[1..]))
  }

  ghost function Run(cfg: Config, s: System, moves: seq<Move>): System
    requires Legal(cfg, s, moves)
    decreases |moves|
  {
    if moves == [] then s else Run(cfg, Apply(cfg, s, moves[0]), moves[1..])
  }

  lemma {:induction false} OneMore(cfg: Config, s: System, moves: seq<Move>, m: Move)
    requires Legal(cfg, s, moves) && Enabled(Run(cfg, s, moves), m)
    ensures Legal(cfg, s, moves + [m]) && Run(cfg, s, moves + [m]) == Apply(cfg, Run(cfg, s, moves), m)
    decreases |moves|
  {
    if moves == [] {
      assert [m][1..] == [];
    } else {
      OneMore(cfg, Apply(cfg, s, moves[0]), moves[1..], m);
      assert (moves + [m])[1..] == moves[1..] + [m];
    }
  }

  // -------------------------------------------------------------- a call on its own

  /** The state after a ready plan has run to its end. */
  function Carried(s: X.State, plan: Plan): X.State
    requires plan.Ready?
  {
    X.State(Received(Put(s.store, plan.record), plan), s.sent + Sending(plan))
  }

  lemma CarriedIsAfterSubmit(cfg: Config, s: X.State, call: Call, tx: TransactionRequest, simulated: Simulation)
    ensures Carried(s, ReadyPlan(cfg, call, tx, simulated)) == AfterSubmit(cfg, s, call, tx, simulated).0
  {
  }

  lemma AloneFromSubmit(cfg: Config, s: X.State, start: System, before: seq<Move>, plan: Plan) returns (moves: seq<Move>)
    requires plan.Ready? && Legal(cfg, start, before) && Run(cfg, start, before) == System(s, map[0 := Submitting(plan)])
    ensures Legal(cfg, start, moves) && Run(cfg, start, moves) == System(Carried(s, plan), map[])
  {
    OneMore(cfg, start, before, Submit(0));
    moves := before + [Submit(0)];
    OneMore(cfg, start, moves, Note(0));
    moves := moves + [Note(0)];
    if plan.receipt.Some? {
      OneMore(cfg, start, moves, Receive(0));
      moves := moves + [Receive(0)];
    }
    assert Run(cfg, start, moves).clients == map[];
  }

  lemma AloneFromCheck(cfg: Config, s: X.State, start: System, before: seq<Move>, plan: Plan) returns (moves: seq<Move>)
    requires Legal(cfg, start, before) && Run(cfg, start, before) == System(s, map[0 := Preparing(plan)])
    ensures Legal(cfg, start, moves) && Run(cfg, start, moves) == System(if plan.Ready? then Carried(s, plan) else s, map[])
  {
    OneMore(cfg, start, before, Check(0));
    moves := before + [Check(0)];
    if plan.Ready? {
      moves := AloneFromSubmit(cfg, s, start, moves, plan);
    }
  }

  /** A call whose moves nothing interrupts is one whole call. */
  lemma AloneIsExecute(cfg: Config, s: X.State, call: Call) returns (moves: seq<Move>)
    ensures Legal(cfg, System(s, map[]), moves)
    ensures Run(cfg, System(s, map[]), moves) == System(Execute(cfg, s, call).0, map[])
  {
    var start, plan := System(s, map[]), PlanOf(cfg, call);
    OneMore(cfg, start, [], Look(0, call));
    moves := [] + [Look(0, call)];
    if ByKey(s.store, call.request.idempotencyKey).None? {
      moves := AloneFromCheck(cfg, s, start, moves, plan);
      if plan.Ready? {
        CarriedIsAfterSubmit(cfg, s, call, Prepare(cfg, call).value, call.answers.simulation.value);
      }
    }
  }

  // ------------------------------------------------------------------- broadcasts

  function Count(sent: seq<Broadcast>, key: string): nat {
    if sent == [] then 0
    else
      var n := |sent| - 1;
      Count(sent[..n], key) + (if sent[n].key == key then 1 else 0)
  }

  lemma {:induction false} CountMore(sent: seq<Broadcast>, b: Broadcast, key: string)
    ensures Count(sent + [b], key) == Count(sent, key) + (if b.key == key then 1 else 0)
  {
    assert (sent + [b])[..|sent|] == sent;
  }

  /** Past the lookup this call will broadcast for the key. */
  predicate WillSend(plan: Plan, key: string) {
    plan.key == key && plan.Ready? && plan.sending.Some?
  }

  /** Past the lookup, and not recorded yet. */
  predicate IsOpen(client: Client, key: string) {
    !client.Waiting? && WillSend(client.plan, key)
  }

  ghost predicate SomeOpen(s: System, key: string) {
    exists d :: d in s.clients && IsOpen(s.clients[d], key)
  }

  predicate PassesLookup(cfg: Config, s: System, m: Move, key: string) {
    m.Look? && WillSend(PlanOf(cfg, m.call), key) && ByKey(s.state.store, key).None?
  }

  /** No call for the key passes the lookup while another one that will broadcast has yet to record. */
  ghost predicate NoOverlap(cfg: Config, s: System, moves: seq<Move>, key: string)
    requires Legal(cfg, s, moves)
    decreases |moves|
  {
    moves == [] ||
    (!(PassesLookup(cfg, s, moves[0], key) && SomeOpen(s, key)) && NoOverlap(cfg, Apply(cfg, s, moves[0]), moves[1..], key))
  }

  /** Calls for the key come with execution ids. */
  predicate GivesId(m: Move, key: string) {
    m.Look? && m.call.request.idempotencyKey == key ==> m.call.request.executionId != ""
  }

  /** Calls past the lookup that have yet to ask the signer. */
  function Pending(s: System, key: string): set<ClientId> {
    set c | c in s.clients && (s.clients[c].Preparing? || s.clients[c].Submitting?) && WillSend(s.clients[c].plan, key)
  }

  /** Broadcasts made and bound to be made. */
  function Due(s: System, key: string): nat {
    Count(s.state.sent, key) + |Pending(s, key)|
  }

  predicate PlanOk(plan: Plan, key: string) {
    plan.Ready? ==>
      && plan.record.idempotencyKey == plan.key && (plan.key == key ==> plan.record.executionId != "")
      && (plan.sending.Some? ==> plan.sending.value.key == plan.key)
  }

  predicate ClientOk(s: System, c: ClientId, key: string)
    requires c in s.clients
  {
    && PlanOk(s.clients[c].plan, key)
    && (s.clients[c].Recording? && WillSend(s.clients[c].plan, key) ==> Count(s.state.sent, key) >= 1)
  }

  /** Whoever is due to broadcast is open or has left a record. */
  ghost predicate Inv(s: System, key: string) {
    && (forall c :: c in s.clients ==> ClientOk(s, c, key))
    && (Due(s, key) >= 1 ==> SomeOpen(s, key) || ByKey(s.state.store, key).Some?)
  }

  lemma PlanOfIsOk(cfg: Config, call: Call, key: string)
    requires call.request.idempotencyKey == key ==> call.request.executionId != ""
    ensures PlanOk(PlanOf(cfg, call), key) && PlanOf(cfg, call).key == call.request.idempotencyKey
  {
  }

  lemma AdmitDues(s: System, c: ClientId, plan: Plan, key: string)
    requires c !in s.clients
    ensures Admit(s, c, plan).state == s.state
    ensures Due(Admit(s, c, plan), key) ==
      Due(s, key) + (if WillSend(plan, key) && ByKey(s.state.store, key).None? then 1 else 0)
  {
    if ByKey(s.state.store, plan.key).None? {
      AdmitPends(s, c, plan, key);
    }
  }

  lemma AdmitPends(s: System, c: ClientId, plan: Plan, key: string)
    requires c !in s.clients && ByKey(s.state.store, plan.key).None?
    ensures Pending(Admit(s, c, plan), key) == Pending(s, key) + (if WillSend(plan, key) then {c} else {})
  {
  }

  lemma WaitingDues(cfg: Config, s: System, m: Move, key: string)
    requires Enabled(s, m) && (m.Check? || m.Note? || m.Receive?)
    ensures Pending(Apply(cfg, s, m), key) == Pending(s, key) && Apply(cfg, s, m).state.sent == s.state.sent
  {
  }

  lemma {:induction false} SubmitDues(cfg: Config, s: System, c: ClientId, key: string)
    requires Enabled(s, Submit(c)) && ClientOk(s, c, key)
    ensures var s' := Apply(cfg, s, Submit(c)); var sends := WillSend(s.clients[c].plan, key);
      && Pending(s', key) == Pending(s, key) - (if sends then {c} else {}) && (sends ==> c in Pending(s, key))
      && Count(s'.state.sent, key) == Count(s.state.sent, key) + (if sends then 1 else 0)
  {
    var plan := s.clients[c].plan;
    if plan.sending.Some? {
      CountMore(s.state.sent, plan.sending.value, key);
    } else {
      assert s.state.sent + [] == s.state.sent;
    }
  }

  /** The number due grows by one when a call passes the lookup, and never else. */
  lemma {:induction false} DueGrowsByLooks(cfg: Config, s: System, m: Move, key: string)
    requires Inv(s, key) && Enabled(s, m)
    ensures Due(Apply(cfg, s, m), key) == Due(s, key) + (if PassesLookup(cfg, s, m, key) then 1 else 0)
    ensures Count(Apply(cfg, s, m).state.sent, key) >= Count(s.state.sent, key)
  {
    match m
    case Look(c, call) => AdmitDues(s, c, PlanOf(cfg, call), key);
    case Submit(c) =>
      assert ClientOk(s, c, key);
      SubmitDues(cfg, s, c, key);
    case _ => WaitingDues(cfg, s, m, key);
  }

  lemma NoteIsFound(cfg: Config, s: System, c: ClientId, key: string)
    requires Inv(s, key) && Enabled(s, Note(c))
    ensures s.clients[c].plan.key == key || ByKey(s.state.store, key).Some? ==>
      ByKey(Apply(cfg, s, Note(c)).state.store, key).Some?
  {
    assert ClientOk(s, c, key);
  }

  /** An open client stays open unless it records, and a record stays found. */
  lemma OpenOrFound(cfg: Config, s: System, m: Move, key: string)
    requires Inv(s, key) && Enabled(s, m) && (SomeOpen(s, key) || ByKey(s.state.store, key).Some?)
    ensures SomeOpen(Apply(cfg, s, m), key) || ByKey(Apply(cfg, s, m).state.store, key).Some?
  {
    var s' := Apply(cfg, s, m);
    if m.Note? {
      NoteIsFound(cfg, s, m.c, key);
    }
    if ByKey(s'.state.store, key).None? {
      var d :| d in s.clients && IsOpen(s.clients[d], key);
      assert d in s'.clients && IsOpen(s'.clients[d], key);
    }
  }

  lemma ClientsStayOk(cfg: Config, s: System, m: Move, key: string)
    requires Inv(s, key) && Enabled(s, m) && GivesId(m, key)
    ensures var s' := Apply(cfg, s, m); forall c :: c in s'.clients ==> ClientOk(s', c, key)
  {
    var s' := Apply(cfg, s, m);
    DueGrowsByLooks(cfg, s, m, key);
    if m.Look? {
      PlanOfIsOk(cfg, m.call, key);
    }
    forall c | c in s'.clients ensures ClientOk(s', c, key) {
      if c in s.clients {
        assert ClientOk(s, c, key);
        if m == Submit(c) {
          SubmitDues(cfg, s, c, key);
        }
      }
    }
  }

  lemma ApplyKeepsInv(cfg: Config, s: System, m: Move, key: string)
    requires Inv(s, key) && Enabled(s, m) && GivesId(m, key)
    ensures Inv(Apply(cfg, s, m), key)
  {
    var s' := Apply(cfg, s, m);
    ClientsStayOk(cfg, s, m, key);
    DueGrowsByLooks(cfg, s, m, key);
    if Due(s, key) >= 1 {
      OpenOrFound(cfg, s, m, key);
    } else if Due(s', key) >= 1 {
      assert m.c in s'.clients && IsOpen(s'.clients[m.c], key);
    }
  }

  lemma OpenIsDue(s: System, key: string)
    requires Inv(s, key) && SomeOpen(s, key)
    ensures Due(s, key) >= 1
  {
    var d :| d in s.clients && IsOpen(s.clients[d], key);
    assert ClientOk(s, d, key);
    if !s.clients[d].Recording? {
      assert d in Pending(s, key);
    }
  }

  lemma {:induction false} RunDuesIff(cfg: Config, s: System, moves: seq<Move>, key: string)
    requires Inv(s, key) && Legal(cfg, s, moves) && forall m :: m in moves ==> GivesId(m, key)
    ensures Due(Run(cfg, s, moves), key) <= 1 <==> Due(s, key) <= 1 && NoOverlap(cfg, s, moves, key)
    decreases |moves|
  {
    if moves != [] {
      assert moves[0] in moves && forall m :: m in moves[1..] ==> m in moves;
      ApplyKeepsInv(cfg, s, moves[0], key);
      MoveDuesIff(cfg, s, moves[0], key);
      RunDuesIff(cfg, Apply(cfg, s, moves[0]), moves[1..], key);
    }
  }

  /** From at most one due, one move leads to two exactly when it overlaps; and two stay two. */
  lemma MoveDuesIff(cfg: Config, s: System, m: Move, key: string)
    requires Inv(s, key) && Enabled(s, m)
    ensures Due(Apply(cfg, s, m), key) <= 1 <==> Due(s, key) <= 1 && !(PassesLookup(cfg, s, m, key) && SomeOpen(s, key))
  {
    DueGrowsByLooks(cfg, s, m, key);
    if SomeOpen(s, key) {
      OpenIsDue(s, key);
    }
  }

  /**
   * With execution ids given for a key, and calls interleaved in any way: while no call for
   * the key passes the lookup with another one open, it is broadcast at most once; and when
   * every such call has asked the signer, it has been broadcast twice or more if and only if
   * that happened.
   */
  lemma {:induction false} BroadcastTwiceIffOverlap(cfg: Config, moves: seq<Move>, key: string)
    requires Legal(cfg, START, moves) && forall m :: m in moves ==> GivesId(m, key)
    ensures var s := Run(cfg, START, moves);
      && (NoOverlap(cfg, START, moves, key) ==> Count(s.state.sent, key) <= 1)
      && (Pending(s, key) == {} ==> (Count(s.state.sent, key) >= 2 <==> !NoOverlap(cfg, START, moves, key)))
  {
    assert Pending(START, key) == {};
    RunDuesIff(cfg, START, moves, key);
  }

  // -------------------------------------------------------------- two in flight

  /** Two calls for one new key, both past the lookup before either records: two broadcasts. */
  lemma TwoInFlightBroadcastTwice(cfg: Config, s: X.State, a: Call, b: Call, key: string) returns (moves: seq<Move>)
    requires WillSend(PlanOf(cfg, a), key) && WillSend(PlanOf(cfg, b), key) && ByKey(s.store, key).None?
    ensures Legal(cfg, System(s, map[]), moves)
    ensures Count(Run(cfg, System(s, map[]), moves).state.sent, key) == Count(s.sent, key) + 2
  {
    moves := BothLooked(cfg, s, a, b, PlanOf(cfg, a), PlanOf(cfg, b), key);
    PlanSendsForKey(cfg, a);
    PlanSendsForKey(cfg, b);
    moves := BothChecked(cfg, s, System(s, map[]), moves, PlanOf(cfg, a), PlanOf(cfg, b));
    moves := BothSent(cfg, s, System(s, map[]), moves, PlanOf(cfg, a), PlanOf(cfg, b), key);
  }

  lemma PlanSendsForKey(cfg: Config, call: Call)
    ensures var plan := PlanOf(cfg, call); plan.Ready? && plan.sending.Some? ==> plan.sending.value.key == plan.key
  {
  }

  lemma BothSent(cfg: Config, s: X.State, start: System, before: seq<Move>, p: Plan, q: Plan, key: string) returns (moves: seq<Move>)
    requires WillSend(p, key) && WillSend(q, key) && p.sending.value.key == key && q.sending.value.key == key
    requires Legal(cfg, start, before) && Run(cfg, start, before) == System(s, map[0 := Submitting(p), 1 := Submitting(q)])
    ensures Legal(cfg, start, moves) && Count(Run(cfg, start, moves).state.sent, key) == Count(s.sent, key) + 2
  {
    OneMore(cfg, start, before, Submit(0));
    moves := before + [Submit(0)];
    OneMore(cfg, start, moves, Submit(1));
    moves := moves + [Submit(1)];
    CountMore(s.sent, p.sending.value, key);
    CountMore(s.sent + [p.sending.value], q.sending.value, key);
  }

  lemma BothChecked(cfg: Config, s: X.State, start: System, before: seq<Move>, p: Plan, q: Plan) returns (moves: seq<Move>)
    requires p.Ready? && q.Ready?
    requires Legal(cfg, start, before) && Run(cfg, start, before) == System(s, map[0 := Preparing(p), 1 := Preparing(q)])
    ensures Legal(cfg, start, moves) && Run(cfg, start, moves) == System(s, map[0 := Submitting(p), 1 := Submitting(q)])
  {
    OneMore(cfg, start, before, Check(0));
    moves := before + [Check(0)];
    OneMore(cfg, start, moves, Check(1));
    moves := moves + [Check(1)];
  }

  lemma BothLooked(cfg: Config, s: X.State, a: Call, b: Call, p: Plan, q: Plan, key: string) returns (moves: seq<Move>)
    requires p == PlanOf(cfg, a) && q == PlanOf(cfg, b) && p.key == key && q.key == key && ByKey(s.store, key).None?
    ensures Legal(cfg, System(s, map[]), moves)
    ensures Run(cfg, System(s, map[]), moves) == System(s, map[0 := Preparing(p), 1 := Preparing(q)])
  {
    var start := System(s, map[]);
    OneMore(cfg, start, [], Look(0, a));
    moves := [] + [Look(0, a)];
    assert Run(cfg, start, moves) == System(s, map[0 := Preparing(p)]);
    OneMore(cfg, start, moves, Look(1, b));
    moves := moves + [Look(1, b)];
  }
}
