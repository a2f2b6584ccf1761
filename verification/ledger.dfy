/**
 * The budget ledger: accounts that cache two running totals next to the reservations
 * those totals summarise. Money is an integer in a smallest unit. Every operation is a
 * function from one ledger to the next; FinancialService carries them out in place.
 */
module Ledger {
  import opened Wrappers

  type Id = nat

  datatype Scope = AGENT | COMPANY | CATEGORY | RECIPIENT

  datatype AccountKey = AccountKey(
    companyId: string, scope: Scope, scopeKey: string, asset: string, network: Option<string>)

  datatype Account = Account(
    key: AccountKey, agentId: Option<string>, reserved: int, committed: int, limit: Option<nat>)

  datatype Status = RESERVED | COMMITTED | RELEASED | UNKNOWN

  datatype Reservation = Reservation(
    companyId: string, agentId: Option<string>, executionRequestId: Option<Id>, accountId: Id,
    amount: nat, asset: string, status: Status)

  datatype State = State(accounts: map<Id, Account>, reservations: map<Id, Reservation>, nextId: Id)

  datatype ReserveInput = ReserveInput(
    key: AccountKey, agentId: Option<string>, amount: nat, executionRequestId: Option<Id>)

  const EMPTY := State(map[], map[], 0)

  // ---------------------------------------------------------------- operations

  /** The account a lookup by bucket key finds. */
  ghost function FindAccount(s: State, key: AccountKey): (found: Option<Id>)
  {
    if a :| a in s.accounts && s.accounts[a].key == key then Some(a) else None
  }

  function NewAccount(key: AccountKey, agentId: Option<string>, limit: Option<nat>): Account {
    Account(key, agentId, 0, 0, limit)
  }

  ghost function EnsureAccount(s: State, key: AccountKey, agentId: Option<string>, limit: Option<nat>): (State, Id)
  {
    match FindAccount(s, key)
    case Some(a) => (s, a)
    case None =>
      (s.(accounts := s.accounts[s.nextId := NewAccount(key, agentId, limit)], nextId := s.nextId + 1), s.nextId)
  }

  predicate Exceeds(row: Account, amount: int) {
    row.limit.Some? && row.reserved + row.committed + amount > row.limit.value
  }

  /** The one write to an account row that all operations make. */
  function Shift(row: Account, dReserved: int, dCommitted: int): Account {
    row.(reserved := row.reserved + dReserved, committed := row.committed + dCommitted)
  }

  /** What a reservation does to its account row, and what its release does; neither looks at the sign. */
  function Hold(row: Account, amount: int): Account {
    Shift(row, amount, 0)
  }

  function Free(row: Account, amount: int): Account {
    Shift(row, -amount, 0)
  }

  function NewReservation(input: ReserveInput, account: Id): Reservation {
    Reservation(input.key.companyId, input.agentId, input.executionRequestId, account,
                input.amount, input.key.asset, RESERVED)
  }

  /** The two writes of `reserve`: the reservation `id` and the account's reserved total. */
  function ReserveAs(s: State, input: ReserveInput, a: Id, id: Id): State
    requires a in s.accounts
  {
    var row := s.accounts[a];
    s.(accounts := s.accounts[a := Hold(row, input.amount)],
       reservations := s.reservations[id := NewReservation(input, a)])
  }

  /** The transaction of `reserve`, once the account is known. */
  function ReserveOn(s: State, input: ReserveInput, a: Id): (State, Result<Id>)
    requires a in s.accounts
  {
    if Exceeds(s.accounts[a], input.amount) then (s, Err(POLICY_VIOLATION))
    else (ReserveAs(s, input, a, s.nextId).(nextId := s.nextId + 1), Ok(s.nextId))
  }

  /** The account row created by `ensureAccount` survives a refused reservation. */
  ghost function Reserve(s: State, input: ReserveInput): (State, Result<Id>)
  {
    var (s1, a) := EnsureAccount(s, input.key, input.agentId, None);
    ReserveOn(s1, input, a)
  }

  predicate Visible(s: State, companyId: string, id: Id) {
    id in s.reservations && s.reservations[id].companyId == companyId
  }

  /** Write a new status and new totals for the reservation's account. */
  function Settle(s: State, id: Id, status: Status, dReserved: int, dCommitted: int): State
    requires id in s.reservations && s.reservations[id].accountId in s.accounts
  {
    var r := s.reservations[id];
    s.(accounts := s.accounts[r.accountId := Shift(s.accounts[r.accountId], dReserved, dCommitted)],
       reservations := s.reservations[id := r.(status := status)])
  }

  function Commit(s: State, companyId: string, id: Id): (State, Result<Id>) {
    if !Visible(s, companyId, id) then (s, Err(NOT_FOUND))
    else
      var r := s.reservations[id];
      if r.status == COMMITTED then (s, Ok(id))
      else if r.status != RESERVED then (s, Err(CONFLICT))
      else if r.accountId !in s.accounts then (s, Err(INTERNAL_ERROR))
      else (Settle(s, id, COMMITTED, -(r.amount as int), r.amount), Ok(id))
  }

  function Release(s: State, companyId: string, id: Id): (State, Result<Id>) {
    if !Visible(s, companyId, id) then (s, Err(NOT_FOUND))
    else
      var r := s.reservations[id];
      if r.status == RELEASED then (s, Ok(id))
      else if r.status != RESERVED then (s, Err(CONFLICT))
      else if r.accountId !in s.accounts then (s, Err(INTERNAL_ERROR))
      else (Settle(s, id, RELEASED, -(r.amount as int), 0), Ok(id))
  }

  function ReconcileRelease(s: State, companyId: string, id: Id): (State, Result<Id>) {
    if !Visible(s, companyId, id) then (s, Err(NOT_FOUND))
    else
      var r := s.reservations[id];
      if r.status == RELEASED then (s, Ok(id))
      else if r.status == COMMITTED then (s, Err(CONFLICT))
      else if r.accountId !in s.accounts then (s, Err(INTERNAL_ERROR))
      else (Settle(s, id, RELEASED, -(r.amount as int), 0), Ok(id))
  }

  function MarkUnknown(s: State, companyId: string, id: Id): (State, Result<Id>) {
    if !Visible(s, companyId, id) then (s, Err(NOT_FOUND))
    else
      var r := s.reservations[id];
      if r.status != RESERVED && r.status != UNKNOWN then (s, Err(CONFLICT))
      else (s.(reservations := s.reservations[id := r.(status := UNKNOWN)]), Ok(id))
  }

  /** Operations on one existing reservation. */
  datatype Settlement = DoCommit | DoRelease | DoReconcileRelease | DoMarkUnknown

  function ApplySettlement(s: State, op: Settlement, companyId: string, id: Id): (State, Result<Id>) {
    match op
    case DoCommit => Commit(s, companyId, id)
    case DoRelease => Release(s, companyId, id)
    case DoReconcileRelease => ReconcileRelease(s, companyId, id)
    case DoMarkUnknown => MarkUnknown(s, companyId, id)
  }

  datatype Op =
    | OpEnsure(key: AccountKey, agentId: Option<string>, limit: Option<nat>)
    | OpReserve(input: ReserveInput)
    | OpSettle(settlement: Settlement, companyId: string, id: Id)

  ghost function Step(s: State, op: Op): State {
    match op
    case OpEnsure(key, agentId, limit) => EnsureAccount(s, key, agentId, limit).0
    case OpReserve(input) => Reserve(s, input).0
    case OpSettle(settlement, companyId, id) => ApplySettlement(s, settlement, companyId, id).0
  }

  ghost function Run(s: State, ops: seq<Op>): State
    decreases |ops|
  {
    if ops == [] then s else Run(Step(s, ops[0]), ops[1..])
  }

  // ------------------------------------------------------- sums over reservations

  function Weight(r: Reservation, a: Id, statuses: set<Status>): nat {
    if r.accountId == a && r.status in statuses then r.amount else 0
  }

  /** Total amount of account `a`'s reservations whose status is in `statuses`. */
  ghost function SumAt(rs: map<Id, Reservation>, a: Id, statuses: set<Status>): nat {
    if rs == map[] then 0
    else
      var k :| k in rs;
      Weight(rs[k], a, statuses) + SumAt(rs - {k}, a, statuses)
  }

  lemma {:induction false} SumAtRemove(rs: map<Id, Reservation>, k: Id, a: Id, statuses: set<Status>)
    requires k in rs
    ensures SumAt(rs, a, statuses) == Weight(rs[k], a, statuses) + SumAt(rs - {k}, a, statuses)
    decreases |rs|
  {
    var j :| j in rs && SumAt(rs, a, statuses) == Weight(rs[j], a, statuses) + SumAt(rs - {j}, a, statuses);
    if j != k {
      SumAtRemove(rs - {j}, k, a, statuses);
      SumAtRemove(rs - {k}, j, a, statuses);
      assert rs - {j} - {k} == rs - {k} - {j};
    }
  }

  lemma SumAtPut(rs: map<Id, Reservation>, k: Id, r: Reservation, a: Id, statuses: set<Status>)
    ensures SumAt(rs[k := r], a, statuses)
         == SumAt(rs, a, statuses) - (if k in rs then Weight(rs[k], a, statuses) else 0) + Weight(r, a, statuses)
  {
    SumAtRemove(rs[k := r], k, a, statuses);
    assert rs[k := r] - {k} == rs - {k};
    if k in rs {
      SumAtRemove(rs, k, a, statuses);
    } else {
      assert rs - {k} == rs;
    }
  }

  lemma {:induction false} SumAtNone(rs: map<Id, Reservation>, a: Id, statuses: set<Status>)
    requires forall k :: k in rs ==> rs[k].accountId != a
    ensures SumAt(rs, a, statuses) == 0
    decreases |rs|
  {
    if rs != map[] {
      var k :| k in rs;
      SumAtRemove(rs, k, a, statuses);
      SumAtNone(rs - {k}, a, statuses);
    }
  }

  /** Only the reservations of the account count. */
  lemma {:induction false} SumAtAgrees(rs: map<Id, Reservation>, qs: map<Id, Reservation>, a: Id, statuses: set<Status>)
    requires forall k :: k in rs && rs[k].accountId == a ==> k in qs && qs[k] == rs[k]
    requires forall k :: k in qs && qs[k].accountId == a ==> k in rs && rs[k] == qs[k]
    ensures SumAt(rs, a, statuses) == SumAt(qs, a, statuses)
    decreases |rs|
  {
    if k :| k in rs {
      SumAtRemove(rs, k, a, statuses);
      if rs[k].accountId == a {
        SumAtRemove(qs, k, a, statuses);
        SumAtAgrees(rs - {k}, qs - {k}, a, statuses);
      } else {
        SumAtAgrees(rs - {k}, qs, a, statuses);
      }
    } else {
      SumAtNone(qs, a, statuses);
    }
  }

  ghost function Held(s: State, a: Id): nat {
    SumAt(s.reservations, a, {RESERVED, UNKNOWN})
  }

  ghost function Spent(s: State, a: Id): nat {
    SumAt(s.reservations, a, {COMMITTED})
  }

  // ----------------------------------------------------------------- invariants

  /** Identifiers in use were handed out, and reservations point at accounts. */
  ghost predicate Formed(s: State) {
    && (forall a :: a in s.accounts ==> a < s.nextId)
    && (forall r :: r in s.reservations ==> r < s.nextId && s.reservations[r].accountId in s.accounts)
  }

  ghost predicate UniqueKeys(s: State) {
    forall a, b :: a in s.accounts && b in s.accounts && s.accounts[a].key == s.accounts[b].key ==> a == b
  }

  ghost predicate Balanced(s: State, a: Id)
    requires a in s.accounts
  {
    && s.accounts[a].reserved == Held(s, a)
    && s.accounts[a].committed == Spent(s, a)
  }

  predicate WithinLimit(row: Account) {
    row.limit.Some? ==> row.reserved + row.committed <= row.limit.value
  }

  ghost predicate Sound(s: State) {
    && Formed(s)
    && (forall a :: a in s.accounts ==> Balanced(s, a) && WithinLimit(s.accounts[a]))
  }

  ghost predicate Inv(s: State) {
    Sound(s) && UniqueKeys(s)
  }

  /** How far the cached totals of `a` are from the sums they stand for. */
  ghost function Drift(s: State, a: Id): (int, int)
    requires a in s.accounts
  {
    (s.accounts[a].reserved - Held(s, a), s.accounts[a].committed - Spent(s, a))
  }

  /** Moving a held reservation on shifts the totals by what it no longer holds and now spends. */
  lemma SettleKeepsDrift(s: State, id: Id, status: Status, dReserved: int, dCommitted: int, a: Id)
    requires Formed(s) && a in s.accounts && id in s.reservations && s.reservations[id].status in {RESERVED, UNKNOWN}
    requires status in {COMMITTED, RELEASED} && dReserved == -(s.reservations[id].amount as int)
    requires dCommitted == if status == COMMITTED then s.reservations[id].amount else 0
    ensures var s' := Settle(s, id, status, dReserved, dCommitted); Formed(s') && Drift(s', a) == Drift(s, a)
  {
    var r := s.reservations[id].(status := status);
    SumAtPut(s.reservations, id, r, a, {RESERVED, UNKNOWN});
    SumAtPut(s.reservations, id, r, a, {COMMITTED});
  }

  lemma MarkKeepsDrift(s: State, id: Id, a: Id)
    requires Formed(s) && a in s.accounts && id in s.reservations && s.reservations[id].status in {RESERVED, UNKNOWN}
    ensures var s' := s.(reservations := s.reservations[id := s.reservations[id].(status := UNKNOWN)]);
      Formed(s') && Drift(s', a) == Drift(s, a)
  {
    var r := s.reservations[id].(status := UNKNOWN);
    SumAtPut(s.reservations, id, r, a, {RESERVED, UNKNOWN});
    SumAtPut(s.reservations, id, r, a, {COMMITTED});
  }

  /** Settling one reservation shifts the cached totals and the sums by the same amounts. */
  lemma SettlementKeepsDrift(s: State, op: Settlement, companyId: string, id: Id, a: Id)
    requires Formed(s) && a in s.accounts
    ensures var s' := ApplySettlement(s, op, companyId, id).0;
      && Formed(s') && s'.accounts.Keys == s.accounts.Keys
      && Drift(s', a) == Drift(s, a)
      && s'.accounts[a].key == s.accounts[a].key && s'.accounts[a].limit == s.accounts[a].limit
      && s'.accounts[a].reserved + s'.accounts[a].committed <= s.accounts[a].reserved + s.accounts[a].committed
      && (id !in s.reservations || s.reservations[id].accountId != a ==> s'.accounts[a] == s.accounts[a])
  {
    var s' := ApplySettlement(s, op, companyId, id).0;
    if s' != s {
      var r := s.reservations[id];
      match op
      case DoCommit => SettleKeepsDrift(s, id, COMMITTED, -(r.amount as int), r.amount, a);
      case DoRelease => SettleKeepsDrift(s, id, RELEASED, -(r.amount as int), 0, a);
      case DoReconcileRelease => SettleKeepsDrift(s, id, RELEASED, -(r.amount as int), 0, a);
      case DoMarkUnknown => MarkKeepsDrift(s, id, a);
    }
  }

  lemma ReserveKeepsDrift(s: State, input: ReserveInput, a: Id, id: Id, b: Id)
    requires a in s.accounts && b in s.accounts && id !in s.reservations
    ensures var s' := ReserveAs(s, input, a, id);
      && Drift(s', b) == Drift(s, b)
      && s'.accounts[b].key == s.accounts[b].key
      && (WithinLimit(s.accounts[b]) && (b == a ==> !Exceeds(s.accounts[a], input.amount)) ==> WithinLimit(s'.accounts[b]))
  {
    SumAtPut(s.reservations, id, NewReservation(input, a), b, {RESERVED, UNKNOWN});
    SumAtPut(s.reservations, id, NewReservation(input, a), b, {COMMITTED});
  }

  lemma ReserveAsIsSound(s: State, input: ReserveInput, a: Id, id: Id)
    requires Sound(s) && a in s.accounts && id !in s.reservations && id < s.nextId
    requires !Exceeds(s.accounts[a], input.amount)
    ensures Sound(ReserveAs(s, input, a, id))
  {
    var s' := ReserveAs(s, input, a, id);
    forall b | b in s.accounts ensures Balanced(s', b) && WithinLimit(s'.accounts[b]) {
      ReserveKeepsDrift(s, input, a, id, b);
    }
  }

  lemma NewAccountIsSound(s: State, row: Account)
    requires Sound(s) && row == NewAccount(row.key, row.agentId, row.limit)
    ensures Sound(s.(accounts := s.accounts[s.nextId := row], nextId := s.nextId + 1))
  {
    SumAtNone(s.reservations, s.nextId, {RESERVED, UNKNOWN});
    SumAtNone(s.reservations, s.nextId, {COMMITTED});
  }

  lemma EnsureKeepsInv(s: State, key: AccountKey, agentId: Option<string>, limit: Option<nat>)
    requires Inv(s)
    ensures var (s', a) := EnsureAccount(s, key, agentId, limit);
      Inv(s') && a in s'.accounts && s'.accounts[a].key == key && s'.reservations == s.reservations
  {
    NewAccountIsSound(s, NewAccount(key, agentId, limit));
  }

  lemma BurnedIdIsSound(s: State)
    requires Sound(s)
    ensures Sound(s.(nextId := s.nextId + 1))
  {
    var t := s.(nextId := s.nextId + 1);
    forall a | a in t.accounts ensures Balanced(t, a) && WithinLimit(t.accounts[a]) {
      assert Balanced(s, a);
    }
  }

  lemma ReserveOnKeepsInv(s: State, input: ReserveInput, a: Id)
    requires Inv(s) && a in s.accounts
    ensures Inv(ReserveOn(s, input, a).0)
  {
    ReserveOnIsSound(s, input, a);
    ReserveOnKeepsKeys(s, input, a);
  }

  lemma ReserveOnKeepsKeys(s: State, input: ReserveInput, a: Id)
    requires UniqueKeys(s) && a in s.accounts
    ensures UniqueKeys(ReserveOn(s, input, a).0)
  {
  }

  lemma ReserveOnIsSound(s: State, input: ReserveInput, a: Id)
    requires Sound(s) && a in s.accounts
    ensures Sound(ReserveOn(s, input, a).0)
  {
    if !Exceeds(s.accounts[a], input.amount) {
      var t := s.(nextId := s.nextId + 1);
      BurnedIdIsSound(s);
      ReserveAsIsSound(t, input, a, s.nextId);
      assert ReserveOn(s, input, a).0 == ReserveAs(t, input, a, s.nextId);
    }
  }

  lemma SettlementIsSound(s: State, op: Settlement, companyId: string, id: Id)
    requires Sound(s)
    ensures var s' := ApplySettlement(s, op, companyId, id).0;
      Sound(s') && (UniqueKeys(s) ==> UniqueKeys(s'))
  {
    var s' := ApplySettlement(s, op, companyId, id).0;
    forall b | b in s.accounts
      ensures Formed(s') && s'.accounts.Keys == s.accounts.Keys && s'.accounts[b].key == s.accounts[b].key
      ensures Balanced(s', b) && WithinLimit(s'.accounts[b])
    {
      SettlementKeepsDrift(s, op, companyId, id, b);
    }
  }

  lemma StepKeepsInv(s: State, op: Op)
    requires Inv(s)
    ensures Inv(Step(s, op))
  {
    match op
    case OpEnsure(key, agentId, limit) =>
      EnsureKeepsInv(s, key, agentId, limit);
    case OpReserve(input) =>
      EnsureKeepsInv(s, input.key, input.agentId, None);
      var (s1, a) := EnsureAccount(s, input.key, input.agentId, None);
      ReserveOnKeepsInv(s1, input, a);
    case OpSettle(settlement, companyId, id) =>
      SettlementIsSound(s, settlement, companyId, id);
  }

  lemma {:induction false} RunKeepsInv(s: State, ops: seq<Op>)
    requires Inv(s)
    ensures Inv(Run(s, ops))
    decreases |ops|
  {
    if ops != [] {
      StepKeepsInv(s, ops[0]);
      RunKeepsInv(Step(s, ops[0]), ops[1..]);
    }
  }

  /**
   * In every run, on any number of accounts and reservations: the cached totals are the
   * sums over the reservations, and no limit is exceeded.
   */
  lemma {:induction false} TotalsAgreeInEveryRun(ops: seq<Op>, a: Id)
    requires a in Run(EMPTY, ops).accounts
    ensures var s := Run(EMPTY, ops);
      && s.accounts[a].reserved == SumAt(s.reservations, a, {RESERVED, UNKNOWN})
      && s.accounts[a].committed == SumAt(s.reservations, a, {COMMITTED})
      && (s.accounts[a].limit.Some? ==> s.accounts[a].reserved + s.accounts[a].committed <= s.accounts[a].limit.value)
  {
    RunKeepsInv(EMPTY, ops);
  }

  /** A reservation is accepted exactly when it fits next to everything still held or spent. */
  lemma ReserveAcceptedIffItFits(s: State, input: ReserveInput)
    requires Inv(s)
    ensures Reserve(s, input).1.Ok? <==>
      forall a :: a in s.accounts && s.accounts[a].key == input.key && s.accounts[a].limit.Some? ==>
        SumAt(s.reservations, a, {RESERVED, UNKNOWN, COMMITTED}) + input.amount <= s.accounts[a].limit.value
    ensures Reserve(s, input).1.Err? ==>
      Reserve(s, input).1.error == POLICY_VIOLATION && Reserve(s, input).0 == s
  {
    forall a | a in s.accounts
      ensures SumAt(s.reservations, a, {RESERVED, UNKNOWN, COMMITTED}) == Held(s, a) + Spent(s, a)
    {
      SumSplits(s.reservations, a);
    }
  }

  lemma {:induction false} SumSplits(rs: map<Id, Reservation>, a: Id)
    ensures SumAt(rs, a, {RESERVED, UNKNOWN, COMMITTED}) == SumAt(rs, a, {RESERVED, UNKNOWN}) + SumAt(rs, a, {COMMITTED})
    decreases |rs|
  {
    if rs != map[] {
      var k :| k in rs;
      SumAtRemove(rs, k, a, {RESERVED, UNKNOWN, COMMITTED});
      SumAtRemove(rs, k, a, {RESERVED, UNKNOWN});
      SumAtRemove(rs, k, a, {COMMITTED});
      SumSplits(rs - {k}, a);
    }
  }

  /** Two states that agree on the reservation settle it by the same changes. */
  lemma SettlementIsLocal(s: State, t: State, op: Settlement, companyId: string, id: Id)
    returns (r: Reservation, dReserved: int, dCommitted: int)
    requires id in s.reservations && id in t.reservations && s.reservations[id] == t.reservations[id]
    requires s.reservations[id].accountId in s.accounts && s.reservations[id].accountId in t.accounts
    ensures r == s.reservations[id].(status := r.status)
    ensures var row := s.accounts[r.accountId];
      ApplySettlement(s, op, companyId, id).0 == State(
        s.accounts[r.accountId := row.(reserved := row.reserved + dReserved, committed := row.committed + dCommitted)],
        s.reservations[id := r], s.nextId)
    ensures var row := t.accounts[r.accountId];
      ApplySettlement(t, op, companyId, id).0 == State(
        t.accounts[r.accountId := row.(reserved := row.reserved + dReserved, committed := row.committed + dCommitted)],
        t.reservations[id := r], t.nextId)
  {
    var s' := ApplySettlement(s, op, companyId, id).0;
    var a := s.reservations[id].accountId;
    r := s'.reservations[id];
    dReserved := s'.accounts[a].reserved - s.accounts[a].reserved;
    dCommitted := s'.accounts[a].committed - s.accounts[a].committed;
  }

  // ------------------------------------------------------------------ lifecycle

  /** Reachability between statuses: the transitive lifecycle. */
  predicate CanBecome(s: Status, t: Status) {
    s == t || s == RESERVED || (s == UNKNOWN && t == RELEASED)
  }

  /** Everything but the status of a stored reservation is fixed for ever. */
  ghost predicate Follows(r: Reservation, r': Reservation) {
    r' == r.(status := r'.status) && CanBecome(r.status, r'.status)
  }

  lemma StepFollowsLifecycle(s: State, op: Op, id: Id)
    requires Formed(s) && id in s.reservations
    ensures id in Step(s, op).reservations && Follows(s.reservations[id], Step(s, op).reservations[id])
    ensures s.reservations[id].status == UNKNOWN && Step(s, op).reservations[id].status != UNKNOWN ==>
      op == OpSettle(DoReconcileRelease, s.reservations[id].companyId, id)
  {
  }

  /** Over a whole run a reservation only moves forward and never changes owner or amount. */
  lemma {:induction false} RunFollowsLifecycle(s: State, ops: seq<Op>, id: Id)
    requires Inv(s) && id in s.reservations
    ensures id in Run(s, ops).reservations && Follows(s.reservations[id], Run(s, ops).reservations[id])
    decreases |ops|
  {
    if ops != [] {
      StepKeepsInv(s, ops[0]);
      StepFollowsLifecycle(s, ops[0], id);
      RunFollowsLifecycle(Step(s, ops[0]), ops[1..], id);
    }
  }

  /** An UNKNOWN hold survives any run that does not reconcile it, and keeps its budget. */
  lemma {:induction false} UnknownHoldSurvives(s: State, ops: seq<Op>, id: Id)
    requires Inv(s) && id in s.reservations && s.reservations[id].status == UNKNOWN
    requires OpSettle(DoReconcileRelease, s.reservations[id].companyId, id) !in ops
    ensures var r := s.reservations[id];
      && id in Run(s, ops).reservations && Run(s, ops).reservations[id] == r
      && r.accountId in Run(s, ops).accounts && Run(s, ops).accounts[r.accountId].reserved >= r.amount
    decreases |ops|
  {
    StepHoldsAmount(s, id);
    if ops != [] {
      StepKeepsInv(s, ops[0]);
      StepFollowsLifecycle(s, ops[0], id);
      UnknownHoldSurvives(Step(s, ops[0]), ops[1..], id);
    }
  }

  lemma StepHoldsAmount(s: State, id: Id)
    requires Inv(s) && id in s.reservations && s.reservations[id].status in {RESERVED, UNKNOWN}
    ensures s.accounts[s.reservations[id].accountId].reserved >= s.reservations[id].amount
  {
    SumAtRemove(s.reservations, id, s.reservations[id].accountId, {RESERVED, UNKNOWN});
  }

  // ------------------------------------------------------------- negative amounts

  /**
   * Amounts are natural numbers here because the code does not check their sign. With a
   * negative one, for every limit: hold it, fill the account up to the limit, free the
   * negative one, and the account is over its limit although no check failed.
   */
  lemma NegativeHoldBreaksLimit(key: AccountKey, agentId: Option<string>, limit: nat, amount: int)
    requires amount < 0
    ensures var row := NewAccount(key, agentId, Some(limit)); var fill := limit - amount;
      && !Exceeds(row, amount) && !Exceeds(Hold(row, amount), fill)
      && !WithinLimit(Free(Hold(Hold(row, amount), fill), amount))
  {
  }

  /** Freeing a hold keeps every account that is within its limit there if and only if the amount is not negative. */
  lemma FreeKeepsLimitIffNotNegative(amount: int)
    ensures (forall row :: WithinLimit(row) ==> WithinLimit(Free(row, amount))) <==> amount >= 0
  {
    if amount < 0 {
      var row := Account(AccountKey("", AGENT, "", "", None), None, 0, 0, Some(0));
      assert WithinLimit(row) && !WithinLimit(Free(row, amount));
    }
  }

  // ---------------------------------------------------------- what undoes what

  /** Releasing a fresh reservation gives back exactly the accounts there were before it. */
  lemma ReleaseUndoesReserve(s: State, input: ReserveInput)
    requires Inv(s) && Reserve(s, input).1.Ok?
    ensures var (s1, r) := Reserve(s, input);
      var (s2, r2) := Release(s1, input.key.companyId, r.value);
      r2.Ok? && s2.accounts == EnsureAccount(s, input.key, input.agentId, None).0.accounts
  {
    EnsureKeepsInv(s, input.key, input.agentId, None);
    var (s1, a) := EnsureAccount(s, input.key, input.agentId, None);
    ReleaseUndoesReserveOn(s1, input, a);
  }

  lemma ReleaseUndoesReserveOn(s: State, input: ReserveInput, a: Id)
    requires a in s.accounts && ReserveOn(s, input, a).1.Ok?
    ensures var (s1, r) := ReserveOn(s, input, a);
      var (s2, r2) := Release(s1, input.key.companyId, r.value);
      r2.Ok? && s2.accounts == s.accounts
  {
  }

  /** A settlement that succeeded is a no-op when repeated. */
  lemma SettlementsAreIdempotent(s: State, op: Settlement, companyId: string, id: Id)
    requires ApplySettlement(s, op, companyId, id).1.Ok?
    ensures var s1 := ApplySettlement(s, op, companyId, id).0;
      ApplySettlement(s1, op, companyId, id) == (s1, Ok(id))
  {
    var s1 := ApplySettlement(s, op, companyId, id).0;
    if op == DoMarkUnknown {
      assert s1.reservations[id := s1.reservations[id].(status := UNKNOWN)] == s1.reservations;
    }
  }

  /** Committing moves the amount from held to spent and leaves the sum of both alone. */
  lemma CommitMovesHeldToSpent(s: State, companyId: string, id: Id)
    requires Inv(s) && Visible(s, companyId, id) && s.reservations[id].status == RESERVED
    ensures var s' := Commit(s, companyId, id).0; var a := s.reservations[id].accountId;
      && Held(s', a) == Held(s, a) - s.reservations[id].amount
      && Spent(s', a) == Spent(s, a) + s.reservations[id].amount
      && (forall b :: b != a ==> Held(s', b) == Held(s, b) && Spent(s', b) == Spent(s, b))
  {
    var s' := Commit(s, companyId, id).0;
    forall b {:trigger Held(s', b)} {:trigger Spent(s', b)}
      ensures b != s.reservations[id].accountId ==> Held(s', b) == Held(s, b) && Spent(s', b) == Spent(s, b)
      ensures b == s.reservations[id].accountId ==>
        Held(s', b) == Held(s, b) - s.reservations[id].amount && Spent(s', b) == Spent(s, b) + s.reservations[id].amount
    {
      SumAtPut(s.reservations, id, s'.reservations[id], b, {RESERVED, UNKNOWN});
      SumAtPut(s.reservations, id, s'.reservations[id], b, {COMMITTED});
    }
  }

  // ------------------------------------------------------------- what each call answers

  ghost predicate HasAccount(s: State, key: AccountKey) {
    exists a :: a in s.accounts && s.accounts[a].key == key
  }

  /** A known bucket is left as it is; a new one gets an empty account with the given agent and limit, under a new id. */
  lemma EnsureMeaning(s: State, key: AccountKey, agentId: Option<string>, limit: Option<nat>)
    requires Inv(s)
    ensures var (s', a) := EnsureAccount(s, key, agentId, limit);
      && Step(s, OpEnsure(key, agentId, limit)) == s'
      && a in s'.accounts && s'.accounts[a].key == key && s'.reservations == s.reservations
      && (HasAccount(s, key) ==> s' == s)
      && (!HasAccount(s, key) ==>
            && a !in s.accounts && s'.accounts - {a} == s.accounts
            && s'.accounts[a].agentId == agentId && s'.accounts[a].limit == limit
            && s'.accounts[a].reserved == 0 && s'.accounts[a].committed == 0)
  {
    var s' := EnsureAccount(s, key, agentId, limit).0;
    if HasAccount(s, key) {
      var a :| a in s.accounts && s.accounts[a].key == key;
    } else {
      assert s'.accounts - {s.nextId} == s.accounts;
    }
  }

  /** Key, agent and limit of an account never change. */
  lemma {:induction false} LimitsNeverChange(s: State, ops: seq<Op>, a: Id)
    requires Inv(s) && a in s.accounts
    ensures var s' := Run(s, ops);
      && a in s'.accounts && s'.accounts[a].key == s.accounts[a].key
      && s'.accounts[a].agentId == s.accounts[a].agentId && s'.accounts[a].limit == s.accounts[a].limit
    decreases |ops|
  {
    if ops != [] {
      StepKeepsInv(s, ops[0]);
      StepKeepsLimit(s, ops[0], a);
      LimitsNeverChange(Step(s, ops[0]), ops[1..], a);
    }
  }

  lemma StepKeepsLimit(s: State, op: Op, a: Id)
    requires Inv(s) && a in s.accounts
    ensures var s' := Step(s, op);
      && a in s'.accounts && s'.accounts[a].key == s.accounts[a].key
      && s'.accounts[a].agentId == s.accounts[a].agentId && s'.accounts[a].limit == s.accounts[a].limit
  {
  }

  /** The limit an account is made with decides: its first reservation is accepted exactly when it is no larger. */
  lemma FirstReserveObeysLimit(s: State, input: ReserveInput, agentId: Option<string>, limit: Option<nat>)
    requires Inv(s) && !HasAccount(s, input.key)
    ensures var s' := EnsureAccount(s, input.key, agentId, limit).0;
      Reserve(s', input).1.Ok? <==> limit.None? || input.amount <= limit.value
  {
    EnsureKeepsInv(s, input.key, agentId, limit);
    EnsureMeaning(s, input.key, agentId, limit);
    var (s', a) := EnsureAccount(s, input.key, agentId, limit);
    SumAtNone(s'.reservations, a, {RESERVED, UNKNOWN, COMMITTED});
    ReserveAcceptedIffItFits(s', input);
  }

  /** What an accepted reservation stores: one row that carries the call, and its amount held on the account of its bucket. */
  lemma ReserveStores(s: State, input: ReserveInput)
    requires Inv(s) && Reserve(s, input).1.Ok?
    ensures var (s', r) := Reserve(s, input); var id := r.value;
      && Step(s, OpReserve(input)) == s'
      && id !in s.reservations && id in s'.reservations && s'.reservations - {id} == s.reservations
      && var row := s'.reservations[id];
         && row.companyId == input.key.companyId && row.agentId == input.agentId && row.asset == input.key.asset
         && row.executionRequestId == input.executionRequestId && row.amount == input.amount && row.status == RESERVED
         && row.accountId in s'.accounts && s'.accounts[row.accountId].key == input.key
         && (row.accountId in s.accounts ==> s'.accounts[row.accountId].reserved == s.accounts[row.accountId].reserved + input.amount)
         && (row.accountId !in s.accounts ==> s'.accounts[row.accountId] == Account(input.key, input.agentId, input.amount, 0, None))
         && forall a :: a in s.accounts && a != row.accountId ==> a in s'.accounts && s'.accounts[a] == s.accounts[a]
  {
    EnsureMeaning(s, input.key, input.agentId, None);
    var (s', r) := Reserve(s, input);
    assert s'.reservations - {r.value} == s.reservations;
  }

  /** The statuses in which a settlement is a conflict, and the status it leads to otherwise. */
  function Conflicts(op: Settlement): set<Status> {
    match op
    case DoCommit => {RELEASED, UNKNOWN}
    case DoRelease => {COMMITTED, UNKNOWN}
    case DoReconcileRelease => {COMMITTED}
    case DoMarkUnknown => {COMMITTED, RELEASED}
  }

  function Target(op: Settlement): Status {
    match op
    case DoCommit => COMMITTED
    case DoRelease => RELEASED
    case DoReconcileRelease => RELEASED
    case DoMarkUnknown => UNKNOWN
  }

  /**
   * A settlement by another company, or of no reservation, is NOT_FOUND; in a status it does
   * not apply to it is a CONFLICT; both change nothing. Any other puts the one reservation in
   * its target status.
   */
  lemma SettlementAnswers(s: State, op: Settlement, companyId: string, id: Id)
    requires Formed(s)
    ensures var (s', r) := ApplySettlement(s, op, companyId, id);
      && Step(s, OpSettle(op, companyId, id)) == s'
      && (r == Err(NOT_FOUND) <==> id !in s.reservations || s.reservations[id].companyId != companyId)
      && (r == Err(CONFLICT) <==>
            id in s.reservations && s.reservations[id].companyId == companyId && s.reservations[id].status in Conflicts(op))
      && (r.Err? ==> r.error in {NOT_FOUND, CONFLICT} && s' == s)
      && (r.Ok? ==> r.value == id && s'.reservations == s.reservations[id := s.reservations[id].(status := Target(op))])
  {
    var s' := ApplySettlement(s, op, companyId, id).0;
    if id in s.reservations {
      assert s'.reservations == s.reservations || s'.reservations == s.reservations[id := s.reservations[id].(status := Target(op))];
      if s.reservations[id].status == Target(op) {
        assert s.reservations[id := s.reservations[id].(status := Target(op))] == s.reservations;
      }
    }
  }

  /** Releasing gives the amount back to the account and touches no other account; marking moves no money. */
  lemma SettlementMovesMoney(s: State, op: Settlement, companyId: string, id: Id)
    requires Formed(s) && Visible(s, companyId, id) && s.reservations[id].status in {RESERVED, UNKNOWN}
    requires ApplySettlement(s, op, companyId, id).1.Ok?
    ensures var s' := ApplySettlement(s, op, companyId, id).0; var r := s.reservations[id];
      && s'.accounts.Keys == s.accounts.Keys
      && (forall a :: a in s.accounts && a != r.accountId ==> s'.accounts[a] == s.accounts[a])
      && var row, row' := s.accounts[r.accountId], s'.accounts[r.accountId];
         && row'.reserved == row.reserved - (if op == DoMarkUnknown then 0 else r.amount)
         && row'.committed == row.committed + (if op == DoCommit then r.amount else 0)
  {
  }
}
