/**
 * Constitution versions of agents: creation, and activation, which supersedes what was
 * active and repoints the agent. The hash of a version is a parameter.
 */
module ConstitutionLifecycle {
  import opened Wrappers
  import opened DecimalStrings
  import V = VersionNumbers

  type Id = nat

  datatype Status = DRAFT | ACTIVE | SUPERSEDED | DISABLED

  /** The parts of a configuration that are checked; the rest is carried as text. */
  datatype Config = Config(allowedActions: seq<string>, spendingLimits: seq<(string, string)>, rest: string)

  datatype Constitution = Constitution(companyId: string, agentId: string, version: nat, status: Status, config: Config, hash: string)

  datatype Agent = Agent(companyId: string, activeConstitutionId: Option<Id>)

  datatype Hashed = Hashed(agentId: string, version: nat, config: Config)

  type HashFunction = Hashed -> string

  type Rows = map<Id, Constitution>

  type Agents = map<string, Agent>

  datatype State = State(agents: Agents, rows: Rows, nextId: Id)

  // ------------------------------------------------------------------------- validation

  /** An allowed action, and limits that are digits, or digits, a point and digits. */
  ghost predicate IsValid(config: Config) {
    |config.allowedActions| > 0 && forall i :: 0 <= i < |config.spendingLimits| ==> IsDecimalText(config.spendingLimits[i].1)
  }

  ghost predicate IsDecimalText(s: string) {
    exists w, f :: IsDecimal(s, w, f)
  }

  lemma PatternIsDecimalText(s: string)
    ensures MatchDecimal(s).Some? <==> IsDecimalText(s)
  {
    if MatchDecimal(s).Some? {
      MatchIsTheGrammar(s, MatchDecimal(s).value.whole, MatchDecimal(s).value.frac);
    }
    if w, f :| IsDecimal(s, w, f) {
      MatchIsTheGrammar(s, w, f);
    }
  }

  method ValidateConstitution(config: Config) returns (ok: bool)
    ensures ok <==> IsValid(config)
  {
    if |config.allowedActions| == 0 { return false; }
    for i := 0 to |config.spendingLimits|
      invariant forall j :: 0 <= j < i ==> IsDecimalText(config.spendingLimits[j].1)
    {
      PatternIsDecimalText(config.spendingLimits[i].1);
      if MatchDecimal(config.spendingLimits[i].1).None? { return false; }
    }
    return true;
  }

  // ---------------------------------------------------------------------- create, activate

  function NumbersOf(rows: Rows): V.Numbers<string> {
    map c | c in rows :: (rows[c].agentId, rows[c].version)
  }

  /** The highest version number of the agent, or 0 if it has none. */
  ghost function LatestVersion(rows: Rows, agentId: string): (n: nat)
    ensures forall c :: c in rows && rows[c].agentId == agentId ==> rows[c].version <= n
    ensures n == 0 || exists c :: c in rows && rows[c].agentId == agentId && rows[c].version == n
  {
    var numbers, n := NumbersOf(rows), V.Latest(NumbersOf(rows), agentId);
    assert forall c :: c in rows ==> numbers[c] == (rows[c].agentId, rows[c].version);
    n
  }

  function NewRow(h: HashFunction, companyId: string, agentId: string, version: nat, config: Config): Constitution {
    Constitution(companyId, agentId, version, DRAFT, config, h(Hashed(agentId, version, config)))
  }

  ghost function Create(h: HashFunction, s: State, companyId: string, agentId: string, config: Config): (State, Result<Id>) {
    if !IsValid(config) then (s, Err(INVALID_INPUT))
    else if agentId !in s.agents || s.agents[agentId].companyId != companyId then (s, Err(TENANT_ERROR))
    else
      var row := NewRow(h, companyId, agentId, LatestVersion(s.rows, agentId) + 1, config);
      (s.(rows := s.rows[s.nextId := row], nextId := s.nextId + 1), Ok(s.nextId))
  }

  function Supersede(rows: Rows, companyId: string, agentId: string): Rows {
    map c | c in rows ::
      if rows[c].companyId == companyId && rows[c].agentId == agentId && rows[c].status == ACTIVE
      then rows[c].(status := SUPERSEDED) else rows[c]
  }

  function MakeActive(rows: Rows, c: Id): Rows
    requires c in rows
  {
    Supersede(rows, rows[c].companyId, rows[c].agentId)[c := rows[c].(status := ACTIVE)]
  }

  function Repoint(agents: Agents, agentId: string, c: Id): Agents {
    if agentId in agents then agents[agentId := agents[agentId].(activeConstitutionId := Some(c))] else agents
  }

  /** A draft, or the version that is active already, can be activated. */
  function Activate(s: State, companyId: string, c: Id): (State, Result<Id>) {
    if c !in s.rows || s.rows[c].companyId != companyId then (s, Err(NOT_FOUND))
    else if s.rows[c].status in {SUPERSEDED, DISABLED} then (s, Err(CONFLICT))
    else (State(Repoint(s.agents, s.rows[c].agentId, c), MakeActive(s.rows, c), s.nextId), Ok(c))
  }

  datatype Op =
    | OpCreate(companyId: string, agentId: string, config: Config)
    | OpActivate(companyId: string, c: Id)

  ghost function Step(h: HashFunction, s: State, op: Op): State {
    match op
    case OpCreate(companyId, agentId, config) => Create(h, s, companyId, agentId, config).0
    case OpActivate(companyId, c) => Activate(s, companyId, c).0
  }

  ghost function Run(h: HashFunction, s: State, ops: seq<Op>): State
    decreases |ops|
  {
    if ops == [] then s else Run(h, Step(h, s, ops[0]), ops[1..])
  }

  // ---------------------------------------------------------------------------- invariant

  /** The agent's pointer names the row. */
  predicate Pointed(agents: Agents, rows: Rows, c: Id)
    requires c in rows
  {
    rows[c].agentId in agents && agents[rows[c].agentId].activeConstitutionId == Some(c)
  }

  predicate PointerIsActive(agents: Agents, rows: Rows, a: string)
    requires a in agents
  {
    agents[a].activeConstitutionId.Some? ==>
      && agents[a].activeConstitutionId.value in rows
      && rows[agents[a].activeConstitutionId.value].agentId == a
      && rows[agents[a].activeConstitutionId.value].status == ACTIVE
  }

  /** Pointers and active rows name each other. */
  ghost predicate PointersAgree(agents: Agents, rows: Rows) {
    && (forall c :: c in rows && rows[c].status == ACTIVE ==> Pointed(agents, rows, c))
    && (forall a :: a in agents ==> PointerIsActive(agents, rows, a))
  }

  ghost predicate RowsOk(h: HashFunction, s: State) {
    forall c :: c in s.rows ==>
      && c < s.nextId && s.rows[c].agentId in s.agents && s.agents[s.rows[c].agentId].companyId == s.rows[c].companyId
      && s.rows[c].hash == h(Hashed(s.rows[c].agentId, s.rows[c].version, s.rows[c].config))
  }

  ghost predicate UniqueVersions(rows: Rows) {
    forall c, d :: c in rows && d in rows && SameVersion(rows[c], rows[d]) ==> c == d
  }

  predicate SameVersion(x: Constitution, y: Constitution) {
    x.agentId == y.agentId && x.version == y.version
  }

  ghost predicate Inv(h: HashFunction, s: State) {
    RowsOk(h, s) && PointersAgree(s.agents, s.rows) && UniqueVersions(s.rows)
  }

  lemma CreateKeepsInv(h: HashFunction, s: State, companyId: string, agentId: string, config: Config)
    requires Inv(h, s)
    ensures Inv(h, Create(h, s, companyId, agentId, config).0)
  {
    var s' := Create(h, s, companyId, agentId, config).0;
    if s' != s {
      forall c | c in s'.rows && s'.rows[c].status == ACTIVE ensures Pointed(s'.agents, s'.rows, c) {
        assert Pointed(s.agents, s.rows, c);
      }
      forall a | a in s'.agents ensures PointerIsActive(s'.agents, s'.rows, a) {
        assert PointerIsActive(s.agents, s.rows, a);
      }
    }
  }

  lemma MakeActiveKeepsVersions(rows: Rows, c: Id)
    requires UniqueVersions(rows) && c in rows
    ensures UniqueVersions(MakeActive(rows, c))
  {
    var rs := MakeActive(rows, c);
    forall d, e | d in rs && e in rs && SameVersion(rs[d], rs[e]) ensures d == e {
      assert SameVersion(rows[d], rows[e]);
    }
  }

  lemma ActivateKeepsPointers(h: HashFunction, s: State, c: Id)
    requires RowsOk(h, s) && PointersAgree(s.agents, s.rows) && c in s.rows
    ensures PointersAgree(Repoint(s.agents, s.rows[c].agentId, c), MakeActive(s.rows, c))
  {
    var agents, rows := Repoint(s.agents, s.rows[c].agentId, c), MakeActive(s.rows, c);
    forall d | d in rows && rows[d].status == ACTIVE ensures Pointed(agents, rows, d) {
      if d != c {
        assert s.rows[d].status == ACTIVE;
        assert Pointed(s.agents, s.rows, d);
        assert s.rows[d].agentId != s.rows[c].agentId;
      }
    }
    forall a | a in agents ensures PointerIsActive(agents, rows, a) {
      assert PointerIsActive(s.agents, s.rows, a);
    }
  }

  lemma StepKeepsInv(h: HashFunction, s: State, op: Op)
    requires Inv(h, s)
    ensures Inv(h, Step(h, s, op))
  {
    match op
    case OpCreate(companyId, agentId, config) => CreateKeepsInv(h, s, companyId, agentId, config);
    case OpActivate(companyId, c) =>
      if Activate(s, companyId, c).1.Ok? {
        ActivateKeepsPointers(h, s, c);
        MakeActiveKeepsVersions(s.rows, c);
      }
  }

  lemma {:induction false} RunKeepsInv(h: HashFunction, s: State, ops: seq<Op>)
    requires Inv(h, s)
    ensures Inv(h, Run(h, s, ops))
    decreases |ops|
  {
    if ops != [] {
      StepKeepsInv(h, s, ops[0]);
      RunKeepsInv(h, Step(h, s, ops[0]), ops[1..]);
    }
  }

  /** A database with agents and no constitutions yet. */
  predicate Fresh(s: State) {
    s.rows == map[] && forall a :: a in s.agents ==> s.agents[a].activeConstitutionId.None?
  }

  /** In every run each agent has at most one active constitution, and its pointer names exactly that one. */
  lemma {:induction false} PointerNamesTheActiveOne(h: HashFunction, s: State, ops: seq<Op>, c: Id)
    requires Fresh(s) && c in Run(h, s, ops).rows
    ensures var t := Run(h, s, ops); var row := t.rows[c];
      && row.agentId in t.agents
      && (row.status == ACTIVE <==> t.agents[row.agentId].activeConstitutionId == Some(c))
      && (row.status == ACTIVE ==> forall d :: d in t.rows && d != c && t.rows[d].agentId == row.agentId ==> t.rows[d].status != ACTIVE)
      && t.agents[row.agentId].companyId == row.companyId
      && row.hash == h(Hashed(row.agentId, row.version, row.config))
  {
    RunKeepsInv(h, s, ops);
    var t := Run(h, s, ops);
    assert PointerIsActive(t.agents, t.rows, t.rows[c].agentId);
    forall d | d in t.rows && t.rows[d].status == ACTIVE ensures Pointed(t.agents, t.rows, d) {
    }
  }

  /** Each agent's versions have different numbers. */
  lemma {:induction false} VersionsAreUnique(h: HashFunction, s: State, ops: seq<Op>, c: Id, d: Id)
    requires Fresh(s) && c in Run(h, s, ops).rows && d in Run(h, s, ops).rows && c != d
    ensures Run(h, s, ops).rows[c].agentId == Run(h, s, ops).rows[d].agentId ==>
      Run(h, s, ops).rows[c].version != Run(h, s, ops).rows[d].version
  {
    RunKeepsInv(h, s, ops);
    assert !SameVersion(Run(h, s, ops).rows[c], Run(h, s, ops).rows[d]);
  }

  lemma StepKeepsRow(h: HashFunction, s: State, op: Op, c: Id)
    requires RowsOk(h, s) && c in s.rows
    ensures var rows := Step(h, s, op).rows;
      && c in rows && rows[c] == s.rows[c].(status := rows[c].status)
      && (s.rows[c].status in {SUPERSEDED, DISABLED} ==> rows[c] == s.rows[c])
      && (s.rows[c].status == ACTIVE ==> rows[c].status in {ACTIVE, SUPERSEDED})
  {
  }

  /** Configuration, number and hash of a version never change, and SUPERSEDED and DISABLED are final. */
  lemma {:induction false} VersionsAreImmutable(h: HashFunction, s: State, ops: seq<Op>, c: Id)
    requires Inv(h, s) && c in s.rows
    ensures var rows := Run(h, s, ops).rows;
      && c in rows && rows[c] == s.rows[c].(status := rows[c].status)
      && (s.rows[c].status in {SUPERSEDED, DISABLED} ==> rows[c] == s.rows[c])
    decreases |ops|
  {
    if ops != [] {
      StepKeepsInv(h, s, ops[0]);
      StepKeepsRow(h, s, ops[0], c);
      VersionsAreImmutable(h, Step(h, s, ops[0]), ops[1..], c);
    }
  }

  /** Once an agent has an active constitution it always has one. */
  lemma {:induction false} NeverWithoutAgain(h: HashFunction, s: State, ops: seq<Op>, a: string)
    requires Inv(h, s) && a in s.agents && s.agents[a].activeConstitutionId.Some?
    ensures var t := Run(h, s, ops);
      && a in t.agents && t.agents[a].activeConstitutionId.Some?
      && t.agents[a].activeConstitutionId.value in t.rows
      && t.rows[t.agents[a].activeConstitutionId.value].status == ACTIVE
    decreases |ops|
  {
    if ops == [] {
      assert PointerIsActive(s.agents, s.rows, a);
    } else {
      StepKeepsInv(h, s, ops[0]);
      NeverWithoutAgain(h, Step(h, s, ops[0]), ops[1..], a);
    }
  }

  // ------------------------------------------------------------------------------ service

  class ConstitutionService {
    const h: HashFunction
    var agents: Agents
    var rows: Rows
    var nextId: Id

    constructor (h: HashFunction, agents: Agents)
      ensures this.h == h && Contents() == State(agents, map[], 0)
    {
      this.h, this.agents, rows, nextId := h, agents, map[], 0;
    }

    ghost function Contents(): State
      reads this
    {
      State(agents, rows, nextId)
    }

    method CreateConstitution(companyId: string, agentId: string, config: Config) returns (r: Result<Id>)
      modifies this`rows, this`nextId
      ensures (Contents(), r) == Create(h, old(Contents()), companyId, agentId, config)
    {
      var ok := ValidateConstitution(config);
      if !ok { return Err(INVALID_INPUT); }
      if agentId !in agents || agents[agentId].companyId != companyId { return Err(TENANT_ERROR); }
      var latest := V.FindLatest(NumbersOf(rows), agentId);
      var c := nextId;
      rows := rows[c := Constitution(companyId, agentId, latest + 1, DRAFT, config, h(Hashed(agentId, latest + 1, config)))];
      nextId := c + 1;
      return Ok(c);
    }

    method ActivateConstitution(companyId: string, c: Id) returns (r: Result<Id>)
      requires RowsOk(h, Contents())
      modifies this`rows, this`agents
      ensures (Contents(), r) == Activate(old(Contents()), companyId, c)
    {
      if c !in rows || rows[c].companyId != companyId { return Err(NOT_FOUND); }
      var target := rows[c];
      if target.status == SUPERSEDED || target.status == DISABLED { return Err(CONFLICT); }
      rows := Supersede(rows, companyId, target.agentId);
      rows := rows[c := rows[c].(status := ACTIVE)];
      agents := agents[target.agentId := agents[target.agentId].(activeConstitutionId := Some(c))];
      return Ok(c);
    }
  }

  // ------------------------------------------------------------- what each call answers

  /** One more than the highest version of the agent, or 1. */
  ghost predicate IsNextVersion(rows: Rows, agentId: string, n: nat) {
    && (forall d :: d in rows && rows[d].agentId == agentId ==> rows[d].version < n)
    && (n == 1 || exists d :: d in rows && rows[d].agentId == agentId && rows[d].version == n - 1)
  }

  /** A constitution needs a valid configuration and a known agent; it is stored as a draft with the next version number. */
  lemma CreatesExactly(h: HashFunction, s: State, companyId: string, agentId: string, config: Config)
    requires Inv(h, s)
    ensures Step(h, s, OpCreate(companyId, agentId, config)) == Create(h, s, companyId, agentId, config).0
    ensures var (s', r) := Create(h, s, companyId, agentId, config); var known := agentId in s.agents && s.agents[agentId].companyId == companyId;
      && (r == Err(INVALID_INPUT) <==> !IsValid(config)) && (r == Err(TENANT_ERROR) <==> IsValid(config) && !known)
      && (r.Err? ==> s' == s && r.error in {INVALID_INPUT, TENANT_ERROR})
      && (r.Ok? ==>
            var c := r.value;
            && c !in s.rows && c in s'.rows && s'.rows - {c} == s.rows && s'.agents == s.agents
            && s'.rows[c].companyId == companyId && s'.rows[c].agentId == agentId && s'.rows[c].config == config
            && s'.rows[c].status == DRAFT && s'.rows[c].hash == h(Hashed(agentId, s'.rows[c].version, config))
            && IsNextVersion(s.rows, agentId, s'.rows[c].version))
  {
    var (s', r) := Create(h, s, companyId, agentId, config);
    if r.Ok? {
      assert s'.rows - {r.value} == s.rows;
    }
  }

  /** Activation is of the company's draft or active version: it becomes ACTIVE, the other active one SUPERSEDED, and the agent's pointer names it. */
  lemma ActivatesExactly(h: HashFunction, s: State, companyId: string, c: Id)
    requires Inv(h, s)
    ensures Step(h, s, OpActivate(companyId, c)) == Activate(s, companyId, c).0
    ensures var (s', r) := Activate(s, companyId, c); var known := c in s.rows && s.rows[c].companyId == companyId;
      && (r == Err(NOT_FOUND) <==> !known) && (r == Err(CONFLICT) <==> known && s.rows[c].status in {SUPERSEDED, DISABLED})
      && (r.Err? ==> s' == s && r.error in {NOT_FOUND, CONFLICT})
      && (r.Ok? ==>
            var a := s.rows[c].agentId;
            && r.value == c && s'.nextId == s.nextId && s'.rows.Keys == s.rows.Keys
            && s'.rows[c] == s.rows[c].(status := ACTIVE)
            && (forall d :: d in s.rows && d != c ==>
                  s'.rows[d] == if s.rows[d].agentId == a && s.rows[d].status == ACTIVE then s.rows[d].(status := SUPERSEDED) else s.rows[d])
            && a in s.agents && s'.agents == s.agents[a := s.agents[a].(activeConstitutionId := Some(c))])
  {
  }
}
