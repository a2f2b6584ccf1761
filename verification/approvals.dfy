/**
 * Human approvals: requests bound to a decision context, decided once by an authorized
 * approver. `approve` and `deny` run in a transaction, so a throw leaves no write behind.
 */
module Approvals {
  import opened Wrappers
  import D = DecisionEngine

  type Id = nat

  datatype Approver = Approver(approverId: string, companyId: string, role: string)

  datatype Row = Row(companyId: string, requiredRole: string, request: D.ApprovalRequest)

  datatype Verdict = APPROVED | DENIED

  datatype ResultRow = ResultRow(requestId: Id, approver: Approver, verdict: Verdict, contextHash: string)

  type Rows = map<Id, Row>

  datatype State = State(rows: Rows, results: seq<ResultRow>)

  predicate MayApprove(role: string) {
    role == "ADMIN" || role == "AUTHORIZED_OPERATOR" || role == "APPROVER"
  }

  /** Same company, a permitted role, and the required one unless an administrator. */
  predicate Authorized(row: Row, approver: Approver) {
    && approver.companyId == row.companyId && MayApprove(approver.role)
    && (row.requiredRole != "" ==> approver.role == row.requiredRole || approver.role == "ADMIN")
  }

  predicate Visible(s: State, companyId: string, id: Id) {
    id in s.rows && s.rows[id].companyId == companyId
  }

  /** What stops a decision on the request, if anything does. */
  function Obstacle(s: State, companyId: string, id: Id, now: int): Option<ErrorCode> {
    if !Visible(s, companyId, id) then Some(APPROVAL_NOT_FOUND)
    else if s.rows[id].request.status != D.A_PENDING then Some(CONFLICT)
    else if s.rows[id].request.expiresAt <= now then Some(APPROVAL_EXPIRED)
    else None
  }

  function SetStatus(s: State, id: Id, status: D.ApprovalStatus): State
    requires id in s.rows
  {
    s.(rows := s.rows[id := s.rows[id].(request := s.rows[id].request.(status := status))])
  }

  function Approve(s: State, companyId: string, id: Id, approver: Approver, currentHash: string, now: int): (State, Option<ErrorCode>) {
    var obstacle := Obstacle(s, companyId, id, now);
    if obstacle.Some? then (s, obstacle)
    else if !Authorized(s.rows[id], approver) then (s, Some(AUTHORIZATION_ERROR))
    else if s.rows[id].request.contextHash != currentHash then (s, Some(APPROVAL_MISMATCH))
    else (SetStatus(s, id, D.A_APPROVED).(results := s.results + [ResultRow(id, approver, APPROVED, currentHash)]), None)
  }

  function Deny(s: State, companyId: string, id: Id, approver: Approver, now: int): (State, Option<ErrorCode>) {
    var obstacle := Obstacle(s, companyId, id, now);
    if obstacle.Some? then (s, obstacle)
    else if !Authorized(s.rows[id], approver) then (s, Some(AUTHORIZATION_ERROR))
    else
      var hash := s.rows[id].request.contextHash;
      (SetStatus(s, id, D.A_DENIED).(results := s.results + [ResultRow(id, approver, DENIED, hash)]), None)
  }

  /** No transaction here: an expired request is marked before the call throws. */
  function Cancel(s: State, companyId: string, id: Id, now: int): (State, Option<ErrorCode>) {
    var obstacle := Obstacle(s, companyId, id, now);
    if obstacle == Some(APPROVAL_EXPIRED) then (if id in s.rows then SetStatus(s, id, D.A_EXPIRED) else s, obstacle)
    else if obstacle.Some? then (s, obstacle)
    else (SetStatus(s, id, D.A_CANCELLED), None)
  }

  predicate Lapsed(row: Row, companyId: string, now: int) {
    row.companyId == companyId && row.request.status == D.A_PENDING && row.request.expiresAt <= now
  }

  function ExpireStale(s: State, companyId: string, now: int): State {
    s.(rows := map id | id in s.rows ::
         if Lapsed(s.rows[id], companyId, now) then s.rows[id].(request := s.rows[id].request.(status := D.A_EXPIRED)) else s.rows[id])
  }

  datatype Op =
    | OpCreate(id: Id, companyId: string, requiredRole: string, contextHash: string, expiresAt: int)
    | OpApprove(companyId: string, id: Id, approver: Approver, currentHash: string, now: int)
    | OpDeny(companyId: string, id: Id, approver: Approver, now: int)
    | OpCancel(companyId: string, id: Id, now: int)
    | OpExpire(companyId: string, now: int)

  function Step(s: State, op: Op): State {
    match op
    case OpCreate(id, companyId, role, hash, expiresAt) =>
      if id in s.rows then s
      else s.(rows := s.rows[id := Row(companyId, role, D.ApprovalRequest(D.A_PENDING, expiresAt, hash))])
    case OpApprove(companyId, id, approver, currentHash, now) => Approve(s, companyId, id, approver, currentHash, now).0
    case OpDeny(companyId, id, approver, now) => Deny(s, companyId, id, approver, now).0
    case OpCancel(companyId, id, now) => Cancel(s, companyId, id, now).0
    case OpExpire(companyId, now) => ExpireStale(s, companyId, now)
  }

  function Run(s: State, ops: seq<Op>): State
    decreases |ops|
  {
    if ops == [] then s else Run(Step(s, ops[0]), ops[1..])
  }

  // --------------------------------------------------------------------------- invariant

  function StatusOf(verdict: Verdict): D.ApprovalStatus {
    if verdict == APPROVED then D.A_APPROVED else D.A_DENIED
  }

  /** The result is of an authorized approver, on the context of its request, and the request shows it. */
  predicate ResultFits(rows: Rows, r: ResultRow) {
    && r.requestId in rows && rows[r.requestId].request.status == StatusOf(r.verdict)
    && Authorized(rows[r.requestId], r.approver) && r.contextHash == rows[r.requestId].request.contextHash
  }

  ghost predicate Inv(s: State) {
    && (forall i :: 0 <= i < |s.results| ==> ResultFits(s.rows, s.results[i]))
    && (forall i, j :: 0 <= i < j < |s.results| ==> s.results[i].requestId != s.results[j].requestId)
    && (forall id :: id in s.rows && s.rows[id].request.status in {D.A_APPROVED, D.A_DENIED} ==> HasResult(s.results, id))
  }

  ghost predicate HasResult(results: seq<ResultRow>, id: Id) {
    exists i :: 0 <= i < |results| && results[i].requestId == id
  }

  /** From `rows` to `rows'` requests decided before stay exactly as they are. */
  ghost predicate DecidedStay(rows: Rows, rows': Rows) {
    forall id :: id in rows ==> id in rows' && (rows[id].request.status != D.A_PENDING ==> rows'[id] == rows[id])
  }

  lemma StepDecidesOnce(s: State, op: Op)
    ensures DecidedStay(s.rows, Step(s, op).rows)
    ensures forall id :: id in s.rows ==> Step(s, op).rows[id] == s.rows[id].(request := s.rows[id].request.(status := Step(s, op).rows[id].request.status))
  {
  }

  lemma QuietStepKeepsInv(s: State, s': State)
    requires Inv(s) && DecidedStay(s.rows, s'.rows) && s'.results == s.results
    requires forall id :: id in s'.rows && s'.rows[id].request.status in {D.A_APPROVED, D.A_DENIED} ==> id in s.rows && s.rows[id] == s'.rows[id]
    ensures Inv(s')
  {
    forall i | 0 <= i < |s'.results| ensures ResultFits(s'.rows, s'.results[i]) {
      assert ResultFits(s.rows, s.results[i]);
    }
  }

  lemma DecisionKeepsInv(s: State, id: Id, r: ResultRow)
    requires Inv(s) && id in s.rows && s.rows[id].request.status == D.A_PENDING && r.requestId == id
    requires Authorized(s.rows[id], r.approver) && r.contextHash == s.rows[id].request.contextHash
    ensures Inv(SetStatus(s, id, StatusOf(r.verdict)).(results := s.results + [r]))
  {
    var s' := SetStatus(s, id, StatusOf(r.verdict)).(results := s.results + [r]);
    forall i | 0 <= i < |s.results| ensures ResultFits(s'.rows, s.results[i]) && s.results[i].requestId != id {
      assert ResultFits(s.rows, s.results[i]);
    }
    assert s'.results[|s.results|] == r;
    forall k | k in s'.rows && s'.rows[k].request.status in {D.A_APPROVED, D.A_DENIED} ensures HasResult(s'.results, k) {
      if k != id {
        assert HasResult(s.results, k);
        var i :| 0 <= i < |s.results| && s.results[i].requestId == k;
        assert s'.results[i].requestId == k;
      }
    }
  }

  lemma StepKeepsInv(s: State, op: Op)
    requires Inv(s)
    ensures Inv(Step(s, op))
  {
    StepDecidesOnce(s, op);
    match op
    case OpApprove(companyId, id, approver, currentHash, now) =>
      if Approve(s, companyId, id, approver, currentHash, now).1.None? {
        DecisionKeepsInv(s, id, ResultRow(id, approver, APPROVED, currentHash));
      }
    case OpDeny(companyId, id, approver, now) =>
      if Deny(s, companyId, id, approver, now).1.None? {
        DecisionKeepsInv(s, id, ResultRow(id, approver, DENIED, s.rows[id].request.contextHash));
      }
    case _ => QuietStepKeepsInv(s, Step(s, op));
  }

  lemma {:induction false} RunKeepsInv(s: State, ops: seq<Op>)
    requires Inv(s)
    ensures Inv(Run(s, ops))
    decreases |ops|
  {
    if ops != [] {
      StepKeepsInv(s, ops[0]);
      RunKeepsInv(Step(s, ops[0]), ops[1..]);
    }
  }

  /** A request that left PENDING never changes again. */
  lemma {:induction false} DecisionsAreFinal(s: State, ops: seq<Op>, id: Id)
    requires id in s.rows && s.rows[id].request.status != D.A_PENDING
    ensures id in Run(s, ops).rows && Run(s, ops).rows[id] == s.rows[id]
    decreases |ops|
  {
    if ops != [] {
      StepDecidesOnce(s, ops[0]);
      DecisionsAreFinal(Step(s, ops[0]), ops[1..], id);
    }
  }

  /**
   * Whenever the decision engine is told APPROVED, one authorized approver of the
   * company approved the request, on exactly the context hash now presented.
   */
  lemma {:induction false} ApprovedMeansSomeoneApproved(ops: seq<Op>, id: Id, currentHash: string, now: int)
    requires id in Run(State(map[], []), ops).rows
    requires D.ResolveApprovalState(Some(Run(State(map[], []), ops).rows[id].request), currentHash, now) == D.APPROVED
    ensures var s := Run(State(map[], []), ops);
      exists i :: 0 <= i < |s.results| && s.results[i].requestId == id && s.results[i].verdict == APPROVED
        && Authorized(s.rows[id], s.results[i].approver) && s.results[i].contextHash == currentHash
        && forall j :: 0 <= j < |s.results| && j != i ==> s.results[j].requestId != id
  {
    RunKeepsInv(State(map[], []), ops);
    var s := Run(State(map[], []), ops);
    assert HasResult(s.results, id);
    var i :| 0 <= i < |s.results| && s.results[i].requestId == id;
    assert ResultFits(s.rows, s.results[i]);
  }

  // ------------------------------------------------------------------------------ service

  class ApprovalService {
    var rows: Rows
    var results: seq<ResultRow>

    constructor ()
      ensures Contents() == State(map[], [])
    {
      rows, results := map[], [];
    }

    ghost function Contents(): State
      reads this
    {
      State(rows, results)
    }

    method LoadPending(companyId: string, id: Id, now: int) returns (obstacle: Option<ErrorCode>)
      ensures obstacle == Obstacle(Contents(), companyId, id, now)
    {
      if id !in rows || rows[id].companyId != companyId { return Some(APPROVAL_NOT_FOUND); }
      if rows[id].request.status != D.A_PENDING { return Some(CONFLICT); }
      if rows[id].request.expiresAt <= now { return Some(APPROVAL_EXPIRED); }
      return None;
    }

    method ApproveRequest(companyId: string, id: Id, approver: Approver, currentHash: string, now: int) returns (error: Option<ErrorCode>)
      modifies this
      ensures (Contents(), error) == Approve(old(Contents()), companyId, id, approver, currentHash, now)
    {
      error := LoadPending(companyId, id, now);
      if error.Some? { return; }
      if !Authorized(rows[id], approver) { return Some(AUTHORIZATION_ERROR); }
      if rows[id].request.contextHash != currentHash { return Some(APPROVAL_MISMATCH); }
      rows := rows[id := rows[id].(request := rows[id].request.(status := D.A_APPROVED))];
      results := results + [ResultRow(id, approver, APPROVED, currentHash)];
    }

    method DenyRequest(companyId: string, id: Id, approver: Approver, now: int) returns (error: Option<ErrorCode>)
      modifies this
      ensures (Contents(), error) == Deny(old(Contents()), companyId, id, approver, now)
    {
      error := LoadPending(companyId, id, now);
      if error.Some? { return; }
      if !Authorized(rows[id], approver) { return Some(AUTHORIZATION_ERROR); }
      var hash := rows[id].request.contextHash;
      rows := rows[id := rows[id].(request := rows[id].request.(status := D.A_DENIED))];
      results := results + [ResultRow(id, approver, DENIED, hash)];
    }

    method CancelRequest(companyId: string, id: Id, now: int) returns (error: Option<ErrorCode>)
      modifies this
      ensures (Contents(), error) == Cancel(old(Contents()), companyId, id, now)
    {
      error := LoadPending(companyId, id, now);
      if error.Some? {
        if error.value == APPROVAL_EXPIRED {
          rows := rows[id := rows[id].(request := rows[id].request.(status := D.A_EXPIRED))];
        }
        return;
      }
      rows := rows[id := rows[id].(request := rows[id].request.(status := D.A_CANCELLED))];
    }

    method MarkExpired(companyId: string, now: int)
      modifies this
      ensures Contents() == ExpireStale(old(Contents()), companyId, now)
      ensures rows.Keys == old(rows).Keys && results == old(results)
      ensures forall id :: id in rows ==>
        if old(rows)[id].companyId == companyId && old(rows)[id].request.status == D.A_PENDING && old(rows)[id].request.expiresAt <= now
        then rows[id] == old(rows)[id].(request := old(rows)[id].request.(status := D.A_EXPIRED))
        else rows[id] == old(rows)[id]
    {
      rows := map id | id in rows ::
        if Lapsed(rows[id], companyId, now) then rows[id].(request := rows[id].request.(status := D.A_EXPIRED)) else rows[id];
    }
  }

  // ------------------------------------------------------------- what each call answers

  /** Who may decide: someone of the company with one of three roles, and with the role asked for unless an administrator. */
  lemma WhoMayDecide(row: Row, approver: Approver)
    ensures Authorized(row, approver) <==>
      && approver.companyId == row.companyId && approver.role in {"ADMIN", "AUTHORIZED_OPERATOR", "APPROVER"}
      && (row.requiredRole == "" || approver.role == "ADMIN" || approver.role == row.requiredRole)
  {
  }

  /** The request is of the company, undecided, and its time has not passed. */
  predicate IsOpen(s: State, companyId: string, id: Id, now: int) {
    id in s.rows && s.rows[id].companyId == companyId && s.rows[id].request.status == D.A_PENDING && now < s.rows[id].request.expiresAt
  }

  /** Why a call cannot decide a request, and what it then leaves. */
  ghost predicate NotOpenSaysWhy(s: State, companyId: string, id: Id, now: int, e: Option<ErrorCode>) {
    var known := id in s.rows && s.rows[id].companyId == companyId;
    && (e == Some(APPROVAL_NOT_FOUND) <==> !known)
    && (e == Some(CONFLICT) <==> known && s.rows[id].request.status != D.A_PENDING)
    && (e == Some(APPROVAL_EXPIRED) <==> known && s.rows[id].request.status == D.A_PENDING && s.rows[id].request.expiresAt <= now)
  }

  /** An approval is recorded exactly for an open request, by someone who may decide, on its own context. */
  lemma ApprovesExactly(s: State, companyId: string, id: Id, approver: Approver, currentHash: string, now: int)
    ensures var (s', e) := Approve(s, companyId, id, approver, currentHash, now); var open := IsOpen(s, companyId, id, now);
      && Step(s, OpApprove(companyId, id, approver, currentHash, now)) == s'
      && NotOpenSaysWhy(s, companyId, id, now, e)
      && (e == Some(AUTHORIZATION_ERROR) <==> open && !Authorized(s.rows[id], approver))
      && (e == Some(APPROVAL_MISMATCH) <==> open && Authorized(s.rows[id], approver) && s.rows[id].request.contextHash != currentHash)
      && (e.None? <==> open && Authorized(s.rows[id], approver) && s.rows[id].request.contextHash == currentHash)
      && (e.Some? ==> s' == s)
      && (e.None? ==> s'.results == s.results + [ResultRow(id, approver, APPROVED, currentHash)]
                      && s'.rows == s.rows[id := s.rows[id].(request := s.rows[id].request.(status := D.A_APPROVED))])
  {
  }

  /** A denial likewise, on whatever context; it keeps the hash of the request. */
  lemma DeniesExactly(s: State, companyId: string, id: Id, approver: Approver, now: int)
    ensures var (s', e) := Deny(s, companyId, id, approver, now); var open := IsOpen(s, companyId, id, now);
      && Step(s, OpDeny(companyId, id, approver, now)) == s'
      && NotOpenSaysWhy(s, companyId, id, now, e)
      && (e == Some(AUTHORIZATION_ERROR) <==> open && !Authorized(s.rows[id], approver))
      && (e.None? <==> open && Authorized(s.rows[id], approver))
      && (e.Some? ==> s' == s)
      && (e.None? ==> s'.results == s.results + [ResultRow(id, approver, DENIED, s.rows[id].request.contextHash)]
                      && s'.rows == s.rows[id := s.rows[id].(request := s.rows[id].request.(status := D.A_DENIED))])
  {
  }

  /** A cancellation needs no approver; of a request whose time has passed it leaves the mark EXPIRED. */
  lemma CancelsExactly(s: State, companyId: string, id: Id, now: int)
    ensures var (s', e) := Cancel(s, companyId, id, now);
      && Step(s, OpCancel(companyId, id, now)) == s'
      && NotOpenSaysWhy(s, companyId, id, now, e) && s'.results == s.results
      && (e.None? <==> IsOpen(s, companyId, id, now))
      && (e.None? ==> s'.rows == s.rows[id := s.rows[id].(request := s.rows[id].request.(status := D.A_CANCELLED))])
      && (e == Some(APPROVAL_EXPIRED) ==> s'.rows == s.rows[id := s.rows[id].(request := s.rows[id].request.(status := D.A_EXPIRED))])
      && (e in {Some(APPROVAL_NOT_FOUND), Some(CONFLICT)} ==> s' == s)
  {
  }

  /** A new request is pending, as it was asked for. */
  lemma CreatesPending(s: State, id: Id, companyId: string, requiredRole: string, contextHash: string, expiresAt: int)
    requires id !in s.rows
    ensures var s' := Step(s, OpCreate(id, companyId, requiredRole, contextHash, expiresAt));
      && s'.results == s.results && s'.rows - {id} == s.rows && id in s'.rows
      && s'.rows[id].companyId == companyId && s'.rows[id].requiredRole == requiredRole
      && s'.rows[id].request.status == D.A_PENDING && s'.rows[id].request.expiresAt == expiresAt
      && s'.rows[id].request.contextHash == contextHash
  {
    var s' := Step(s, OpCreate(id, companyId, requiredRole, contextHash, expiresAt));
    assert s'.rows - {id} == s.rows;
  }

  /** An expiry run marks the lapsed requests of the company, and no other. */
  lemma ExpiresExactly(s: State, companyId: string, now: int)
    ensures var s' := Step(s, OpExpire(companyId, now));
      s'.results == s.results && s'.rows.Keys == s.rows.Keys && forall id :: id in s.rows ==>
        var q := s.rows[id].request;
        if s.rows[id].companyId == companyId && q.status == D.A_PENDING && q.expiresAt <= now
        then s'.rows[id] == s.rows[id].(request := q.(status := D.A_EXPIRED)) else s'.rows[id] == s.rows[id]
  {
  }
}
