/**
 * Policies and their versions: drafting, the version state machine and activation, which
 * supersedes whatever was active. The hash of a version is a parameter.
 */
module PolicyLifecycle {
  import opened Wrappers
  import R = PolicyRules
  import V = VersionNumbers

  type Id = nat

  datatype Status = DRAFT | VALIDATING | SIMULATED | APPROVED | ACTIVE | SUPERSEDED | DISABLED

  datatype Policy = Policy(companyId: string, agentId: Option<string>, name: string, currentVersion: nat, isActive: bool)

  datatype Version = Version(policyId: Id, version: nat, status: Status, rules: seq<R.RawRule>, hash: string)

  /** What the hash of a version covers. */
  datatype Hashed = Hashed(policyId: Id, version: nat, rules: seq<R.RawRule>)

  type HashFunction = Hashed -> string

  type Policies = map<Id, Policy>

  type Versions = map<Id, Version>

  datatype State = State(policies: Policies, versions: Versions, nextId: Id)

  const EMPTY := State(map[], map[], 0)

  /** `name` is the trimmed name. */
  datatype DraftInput = DraftInput(
    companyId: string, companyExists: bool, agentId: Option<string>, name: string, rules: seq<R.RawRule>)

  // ------------------------------------------------------------------------ transitions

  const TRANSITIONS: map<Status, set<Status>> := map[
    DRAFT := {VALIDATING, DISABLED},
    VALIDATING := {SIMULATED, DRAFT, DISABLED},
    SIMULATED := {APPROVED, DRAFT, DISABLED},
    APPROVED := {ACTIVE, DISABLED},
    ACTIVE := {SUPERSEDED, DISABLED},
    SUPERSEDED := {},
    DISABLED := {}]

  predicate Allowed(from: Status, to: Status) {
    from in TRANSITIONS && to in TRANSITIONS[from]
  }

  predicate Visible(s: State, companyId: string, v: Id) {
    v in s.versions && s.versions[v].policyId in s.policies && s.policies[s.versions[v].policyId].companyId == companyId
  }

  function SetStatus(s: State, v: Id, status: Status): State
    requires v in s.versions
  {
    s.(versions := s.versions[v := s.versions[v].(status := status)])
  }

  function Transition(s: State, companyId: string, v: Id, to: Status): (State, Result<Id>) {
    if !Visible(s, companyId, v) then (s, Err(NOT_FOUND))
    else if !Allowed(s.versions[v].status, to) then (s, Err(CONFLICT))
    else (SetStatus(s, v, to), Ok(v))
  }

  // --------------------------------------------------------------------------- drafting

  predicate IsPolicy(p: Policy, input: DraftInput) {
    p.companyId == input.companyId && p.agentId == input.agentId && p.name == input.name
  }

  ghost function FindPolicy(s: State, input: DraftInput): (found: Option<Id>)
    ensures found.Some? ==> found.value in s.policies && IsPolicy(s.policies[found.value], input)
    ensures found.None? ==> forall p :: p in s.policies ==> !IsPolicy(s.policies[p], input)
  {
    if p :| p in s.policies && IsPolicy(s.policies[p], input) then Some(p) else None
  }

  function NumbersOf(versions: Versions): V.Numbers<Id> {
    map v | v in versions :: (versions[v].policyId, versions[v].version)
  }

  /** The highest version number of the policy, or 0 if it has none. */
  ghost function LatestVersion(versions: Versions, p: Id): (n: nat)
    ensures forall v :: v in versions && versions[v].policyId == p ==> versions[v].version <= n
    ensures n == 0 || exists v :: v in versions && versions[v].policyId == p && versions[v].version == n
  {
    var rows, n := NumbersOf(versions), V.Latest(NumbersOf(versions), p);
    assert forall v :: v in versions ==> rows[v] == (versions[v].policyId, versions[v].version);
    n
  }

  predicate RulesAreValid(rules: seq<R.RawRule>) {
    && (forall i :: 0 <= i < |rules| ==> R.RawId(rules[i]) != "" && rules[i].ruleType.Some?)
    && (forall i, j :: 0 <= i < j < |rules| ==> R.RawId(rules[i]) != R.RawId(rules[j]))
  }

  function NewVersion(h: HashFunction, p: Id, n: nat, rules: seq<R.RawRule>): Version {
    Version(p, n, DRAFT, rules, h(Hashed(p, n, rules)))
  }

  /** Add the next version of an existing policy. */
  ghost function AddVersion(h: HashFunction, s: State, p: Id, rules: seq<R.RawRule>): (State, Id) {
    var n := LatestVersion(s.versions, p) + 1;
    (s.(versions := s.versions[s.nextId := NewVersion(h, p, n, rules)], nextId := s.nextId + 1), s.nextId)
  }

  ghost function EnsurePolicy(s: State, input: DraftInput): (State, Id) {
    match FindPolicy(s, input)
    case Some(p) => (s, p)
    case None =>
      (s.(policies := s.policies[s.nextId := Policy(input.companyId, input.agentId, input.name, 0, false)], nextId := s.nextId + 1), s.nextId)
  }

  /** The result is the new version, or what stopped the draft. */
  ghost function CreateDraft(h: HashFunction, s: State, input: DraftInput): (State, Option<Id>) {
    if input.name == "" || !RulesAreValid(input.rules) || !input.companyExists then (s, None)
    else
      var (s1, p) := EnsurePolicy(s, input);
      var (s2, v) := AddVersion(h, s1, p, input.rules);
      (s2, Some(v))
  }

  // -------------------------------------------------------------------------- activation

  /** Every active version of the policy becomes superseded. */
  function Supersede(versions: Versions, p: Id): Versions {
    map v | v in versions ::
      if versions[v].policyId == p && versions[v].status == ACTIVE then versions[v].(status := SUPERSEDED) else versions[v]
  }

  function MakeActive(versions: Versions, v: Id): Versions
    requires v in versions
  {
    Supersede(versions, versions[v].policyId)[v := versions[v].(status := ACTIVE)]
  }

  function Activate(s: State, companyId: string, v: Id): (State, Result<Id>) {
    if !Visible(s, companyId, v) then (s, Err(NOT_FOUND))
    else if !Allowed(s.versions[v].status, ACTIVE) then (s, Err(CONFLICT))
    else
      var p := s.versions[v].policyId;
      var versions := MakeActive(s.versions, v);
      var policy := s.policies[p].(currentVersion := s.versions[v].version, isActive := true);
      (State(s.policies[p := policy], versions, s.nextId), Ok(v))
  }

  datatype Op =
    | OpDraft(input: DraftInput)
    | OpMove(companyId: string, v: Id, to: Status)
    | OpActivate(companyId: string, v: Id)

  /** The public moves: validate, simulate, approve and disable. */
  predicate IsPublic(op: Op) {
    op.OpMove? ==> op.to in {VALIDATING, SIMULATED, APPROVED, DISABLED}
  }

  ghost function Step(h: HashFunction, s: State, op: Op): State {
    match op
    case OpDraft(input) => CreateDraft(h, s, input).0
    case OpMove(companyId, v, to) => Transition(s, companyId, v, to).0
    case OpActivate(companyId, v) => Activate(s, companyId, v).0
  }

  ghost function Run(h: HashFunction, ops: seq<Op>): State {
    if ops == [] then EMPTY else Step(h, Run(h, ops[..|ops| - 1]), ops[|ops| - 1])
  }

  // --------------------------------------------------------------------------- invariant

  ghost predicate Numbered(h: HashFunction, s: State) {
    && (forall p :: p in s.policies ==> p < s.nextId)
    && (forall v :: v in s.versions ==> v < s.nextId && s.versions[v].policyId in s.policies)
    && (forall v :: v in s.versions ==> s.versions[v].hash == h(Hashed(s.versions[v].policyId, s.versions[v].version, s.versions[v].rules)))
  }

  predicate SameNumber(v: Version, u: Version) {
    v.policyId == u.policyId && v.version == u.version
  }

  ghost predicate UniqueNumbers(versions: Versions) {
    forall v, u :: v in versions && u in versions && SameNumber(versions[v], versions[u]) ==> v == u
  }

  predicate BothActive(v: Version, u: Version) {
    v.policyId == u.policyId && v.status == ACTIVE && u.status == ACTIVE
  }

  ghost predicate OneActive(versions: Versions) {
    forall v, u :: v in versions && u in versions && BothActive(versions[v], versions[u]) ==> v == u
  }

  predicate Current(policies: Policies, v: Version) {
    v.policyId in policies && policies[v.policyId].currentVersion == v.version && policies[v.policyId].isActive
  }

  ghost predicate PointersName(s: State) {
    forall v :: v in s.versions && s.versions[v].status == ACTIVE ==> Current(s.policies, s.versions[v])
  }

  predicate SameName(p: Policy, q: Policy) {
    p.companyId == q.companyId && p.agentId == q.agentId && p.name == q.name
  }

  ghost predicate UniqueNames(policies: Policies) {
    forall p, q :: p in policies && q in policies && SameName(policies[p], policies[q]) ==> p == q
  }

  ghost predicate Inv(h: HashFunction, s: State) {
    Numbered(h, s) && UniqueNumbers(s.versions) && OneActive(s.versions) && PointersName(s) && UniqueNames(s.policies)
  }

  lemma AddVersionKeepsInv(h: HashFunction, s: State, p: Id, rules: seq<R.RawRule>)
    requires Inv(h, s) && p in s.policies
    ensures Inv(h, AddVersion(h, s, p, rules).0)
  {
  }

  lemma EnsurePolicyKeepsInv(h: HashFunction, s: State, input: DraftInput)
    requires Inv(h, s)
    ensures var (s', p) := EnsurePolicy(s, input);
      Inv(h, s') && p in s'.policies && IsPolicy(s'.policies[p], input) && s'.versions == s.versions
  {
    var (s', p) := EnsurePolicy(s, input);
    if FindPolicy(s, input).None? {
      forall a, b | a in s'.policies && b in s'.policies && SameName(s'.policies[a], s'.policies[b]) ensures a == b {
        assert a in s.policies ==> !IsPolicy(s.policies[a], input);
        assert b in s.policies ==> !IsPolicy(s.policies[b], input);
      }
    }
  }

  lemma StatusKeepsNumbers(versions: Versions, v: Id, to: Status)
    requires UniqueNumbers(versions) && v in versions
    ensures UniqueNumbers(versions[v := versions[v].(status := to)])
  {
    var vs := versions[v := versions[v].(status := to)];
    forall a, b | a in vs && b in vs && SameNumber(vs[a], vs[b]) ensures a == b {
      assert SameNumber(versions[a], versions[b]);
    }
  }

  lemma StatusKeepsOne(versions: Versions, v: Id, to: Status)
    requires OneActive(versions) && v in versions && to != ACTIVE
    ensures OneActive(versions[v := versions[v].(status := to)])
  {
    var vs := versions[v := versions[v].(status := to)];
    forall a, b | a in vs && b in vs && BothActive(vs[a], vs[b]) ensures a == b {
      assert BothActive(versions[a], versions[b]);
    }
  }

  lemma TransitionKeepsInv(h: HashFunction, s: State, companyId: string, v: Id, to: Status)
    requires Inv(h, s) && to != ACTIVE
    ensures Inv(h, Transition(s, companyId, v, to).0)
  {
    if v in s.versions {
      StatusKeepsNumbers(s.versions, v, to);
      StatusKeepsOne(s.versions, v, to);
    }
  }

  lemma MakeActiveKeepsNumbers(versions: Versions, v: Id)
    requires UniqueNumbers(versions) && v in versions
    ensures UniqueNumbers(MakeActive(versions, v))
  {
    var vs := MakeActive(versions, v);
    forall a, b | a in vs && b in vs && SameNumber(vs[a], vs[b]) ensures a == b {
      assert SameNumber(versions[a], versions[b]);
    }
  }

  /** After an activation only the target is active in its policy; elsewhere nothing changed. */
  lemma MakeActiveElsewhere(versions: Versions, v: Id, a: Id)
    requires v in versions && a in MakeActive(versions, v) && a != v && MakeActive(versions, v)[a].status == ACTIVE
    ensures a in versions && MakeActive(versions, v)[a] == versions[a] && versions[a].policyId != versions[v].policyId
  {
  }

  lemma MakeActiveKeepsOne(versions: Versions, v: Id)
    requires OneActive(versions) && v in versions
    ensures OneActive(MakeActive(versions, v))
  {
    var vs := MakeActive(versions, v);
    forall a, b | a in vs && b in vs && BothActive(vs[a], vs[b]) ensures a == b {
      if a != v && b != v {
        MakeActiveElsewhere(versions, v, a);
        MakeActiveElsewhere(versions, v, b);
        assert BothActive(versions[a], versions[b]);
      } else if a != v {
        MakeActiveElsewhere(versions, v, a);
      } else if b != v {
        MakeActiveElsewhere(versions, v, b);
      }
    }
  }

  lemma ActivateKeepsPointers(s: State, companyId: string, v: Id)
    requires PointersName(s) && Activate(s, companyId, v).1.Ok?
    ensures PointersName(Activate(s, companyId, v).0)
  {
    var s' := Activate(s, companyId, v).0;
    forall a | a in s'.versions && s'.versions[a].status == ACTIVE ensures Current(s'.policies, s'.versions[a]) {
      if a != v {
        MakeActiveElsewhere(s.versions, v, a);
        assert Current(s.policies, s.versions[a]);
      }
    }
  }

  lemma ActivateKeepsNames(s: State, companyId: string, v: Id)
    requires UniqueNames(s.policies)
    ensures UniqueNames(Activate(s, companyId, v).0.policies)
  {
    var ps := Activate(s, companyId, v).0.policies;
    forall p, q | p in ps && q in ps && SameName(ps[p], ps[q]) ensures p == q {
      assert SameName(s.policies[p], s.policies[q]);
    }
  }

  lemma ActivateKeepsInv(h: HashFunction, s: State, companyId: string, v: Id)
    requires Inv(h, s)
    ensures Inv(h, Activate(s, companyId, v).0)
  {
    if Activate(s, companyId, v).1.Ok? {
      MakeActiveKeepsNumbers(s.versions, v);
      MakeActiveKeepsOne(s.versions, v);
      ActivateKeepsPointers(s, companyId, v);
      ActivateKeepsNames(s, companyId, v);
      ActivateKeepsRows(h, s, companyId, v);
    }
  }

  lemma ActivateKeepsRows(h: HashFunction, s: State, companyId: string, v: Id)
    requires Numbered(h, s)
    ensures Numbered(h, Activate(s, companyId, v).0)
  {
  }

  lemma {:induction false} RunKeepsInv(h: HashFunction, ops: seq<Op>)
    requires forall op :: op in ops ==> IsPublic(op)
    ensures Inv(h, Run(h, ops))
    decreases |ops|
  {
    if ops != [] {
      var init, op := ops[..|ops| - 1], ops[|ops| - 1];
      RunKeepsInv(h, init);
      var s := Run(h, init);
      assert IsPublic(op);
      match op
      case OpDraft(input) =>
        EnsurePolicyKeepsInv(h, s, input);
        AddVersionKeepsInv(h, EnsurePolicy(s, input).0, EnsurePolicy(s, input).1, input.rules);
      case OpMove(companyId, v, to) => TransitionKeepsInv(h, s, companyId, v, to);
      case OpActivate(companyId, v) => ActivateKeepsInv(h, s, companyId, v);
    }
  }

  /** In every run a policy has at most one active version, its number is the policy's current version, and hashes are those of the rules. */
  lemma {:induction false} ActiveVersionIsUniqueAndNamed(h: HashFunction, ops: seq<Op>, v: Id)
    requires forall op :: op in ops ==> IsPublic(op)
    requires v in Run(h, ops).versions && Run(h, ops).versions[v].status == ACTIVE
    ensures var s := Run(h, ops); var row := s.versions[v];
      && row.policyId in s.policies && s.policies[row.policyId].currentVersion == row.version
      && (forall u :: u in s.versions && u != v && s.versions[u].policyId == row.policyId ==> s.versions[u].status != ACTIVE)
      && row.hash == h(Hashed(row.policyId, row.version, row.rules))
  {
    RunKeepsInv(h, ops);
    var s := Run(h, ops);
    assert Current(s.policies, s.versions[v]);
    forall u | u in s.versions && u != v && s.versions[u].policyId == s.versions[v].policyId ensures s.versions[u].status != ACTIVE {
      assert !BothActive(s.versions[u], s.versions[v]);
    }
  }

  // ---------------------------------------------------------------------- version numbers

  ghost predicate HasNumber(versions: Versions, p: Id, n: nat) {
    exists v :: v in versions && versions[v].policyId == p && versions[v].version == n
  }

  /** Numbers start at 1 and leave no gap. */
  ghost predicate Dense(versions: Versions) {
    forall v, n: nat :: v in versions && 1 <= n <= versions[v].version ==> HasNumber(versions, versions[v].policyId, n)
  }

  /** The versions there were, with the same policies and numbers. */
  ghost predicate SameNumbers(versions: Versions, later: Versions) {
    later.Keys == versions.Keys && forall v :: v in versions ==> SameNumber(later[v], versions[v])
  }

  lemma SameNumbersStayDense(versions: Versions, later: Versions)
    requires Dense(versions) && SameNumbers(versions, later)
    ensures Dense(later)
  {
    forall v, n: nat | v in later && 1 <= n <= later[v].version ensures HasNumber(later, later[v].policyId, n) {
      assert HasNumber(versions, versions[v].policyId, n);
      var u :| u in versions && versions[u].policyId == versions[v].policyId && versions[u].version == n;
      assert SameNumber(later[u], versions[u]);
    }
  }

  lemma NextNumberStaysDense(versions: Versions, v: Id, row: Version)
    requires Dense(versions) && v !in versions && row.version == LatestVersion(versions, row.policyId) + 1
    ensures Dense(versions[v := row])
  {
    var later := versions[v := row];
    forall u, n: nat | u in later && 1 <= n <= later[u].version ensures HasNumber(later, later[u].policyId, n) {
      if u == v && n == row.version {
        assert later[v].version == n;
      } else {
        var w := if u == v then LatestRow(versions, row.policyId) else u;
        assert HasNumber(versions, versions[w].policyId, n);
        var x :| x in versions && versions[x].policyId == versions[w].policyId && versions[x].version == n;
        assert later[x] == versions[x];
      }
    }
  }

  ghost function LatestRow(versions: Versions, p: Id): (v: Id)
    requires LatestVersion(versions, p) > 0
    ensures v in versions && versions[v].policyId == p && versions[v].version == LatestVersion(versions, p)
  {
    var v :| v in versions && versions[v].policyId == p && versions[v].version == LatestVersion(versions, p);
    v
  }

  lemma {:induction false} RunStaysDense(h: HashFunction, ops: seq<Op>)
    requires forall op :: op in ops ==> IsPublic(op)
    ensures Dense(Run(h, ops).versions)
    decreases |ops|
  {
    if ops != [] {
      var init, op := ops[..|ops| - 1], ops[|ops| - 1];
      RunStaysDense(h, init);
      RunKeepsInv(h, init);
      assert op in ops;
      StepStaysDense(h, Run(h, init), op);
    }
  }

  lemma StepStaysDense(h: HashFunction, s: State, op: Op)
    requires Inv(h, s) && Dense(s.versions) && IsPublic(op)
    ensures Dense(Step(h, s, op).versions)
  {
    match op
    case OpDraft(input) => DraftStaysDense(h, s, input);
    case OpMove(companyId, v, to) => SameNumbersStayDense(s.versions, Transition(s, companyId, v, to).0.versions);
    case OpActivate(companyId, v) => SameNumbersStayDense(s.versions, Activate(s, companyId, v).0.versions);
  }

  lemma AddVersionStaysDense(h: HashFunction, s: State, p: Id, rules: seq<R.RawRule>)
    requires Dense(s.versions) && s.nextId !in s.versions
    ensures Dense(AddVersion(h, s, p, rules).0.versions)
  {
    NextNumberStaysDense(s.versions, s.nextId, NewVersion(h, p, LatestVersion(s.versions, p) + 1, rules));
  }

  lemma DraftStaysDense(h: HashFunction, s: State, input: DraftInput)
    requires Inv(h, s) && Dense(s.versions)
    ensures Dense(CreateDraft(h, s, input).0.versions)
  {
    var (s1, p) := EnsurePolicy(s, input);
    assert s1.versions == s.versions && s1.nextId !in s.versions by {
      EnsurePolicyKeepsInv(h, s, input);
    }
    AddVersionStaysDense(h, s1, p, input.rules);
  }

  /** In every run the versions of a policy are numbered 1, 2, 3 and so on, each number once. */
  lemma {:induction false} VersionsAreNumberedWithoutGaps(h: HashFunction, ops: seq<Op>, v: Id, n: nat)
    requires forall op :: op in ops ==> IsPublic(op)
    requires v in Run(h, ops).versions && 1 <= n <= Run(h, ops).versions[v].version
    ensures var vs := Run(h, ops).versions;
      && (exists u :: u in vs && vs[u].policyId == vs[v].policyId && vs[u].version == n)
      && (forall u, w :: u in vs && w in vs && vs[u].policyId == vs[w].policyId && vs[u].version == vs[w].version ==> u == w)
  {
    RunStaysDense(h, ops);
    RunKeepsInv(h, ops);
    var vs := Run(h, ops).versions;
    assert HasNumber(vs, vs[v].policyId, n);
    forall u, w | u in vs && w in vs && vs[u].policyId == vs[w].policyId && vs[u].version == vs[w].version ensures u == w {
      assert SameNumber(vs[u], vs[w]);
    }
  }

  // ------------------------------------------------------------------ history of a version

  lemma StepKeepsRow(h: HashFunction, s: State, op: Op, v: Id)
    requires Numbered(h, s) && v in s.versions && IsPublic(op)
    ensures var s' := Step(h, s, op);
      && v in s'.versions && s'.versions[v] == s.versions[v].(status := s'.versions[v].status)
      && (s'.versions[v].status == s.versions[v].status
          || (Allowed(s.versions[v].status, s'.versions[v].status) && s'.versions[v].status != DRAFT))
  {
  }

  /** Rules, number, policy and hash of a version never change, and SUPERSEDED and DISABLED are final. */
  lemma {:induction false} VersionsAreImmutable(h: HashFunction, ops: seq<Op>, more: seq<Op>, v: Id)
    requires forall op :: op in ops + more ==> IsPublic(op)
    requires v in Run(h, ops).versions
    ensures var before, later := Run(h, ops).versions[v], Run(h, ops + more).versions;
      && v in later && later[v] == before.(status := later[v].status)
      && (before.status in {SUPERSEDED, DISABLED} ==> later[v] == before)
    decreases |more|
  {
    if more == [] {
      assert ops + more == ops;
    } else {
      var init, op := more[..|more| - 1], more[|more| - 1];
      assert (ops + more)[..|ops + more| - 1] == ops + init;
      assert op in ops + more;
      VersionsAreImmutable(h, ops, init, v);
      RunKeepsInv(h, ops + init);
      StepKeepsRow(h, Run(h, ops + init), op, v);
    }
  }

  /** The statuses a version went through, without repetition. */
  ghost function Trail(h: HashFunction, ops: seq<Op>, v: Id): seq<Status> {
    if ops == [] then []
    else
      var t, s := Trail(h, ops[..|ops| - 1], v), Run(h, ops);
      if v !in s.versions || (t != [] && t[|t| - 1] == s.versions[v].status) then t else t + [s.versions[v].status]
  }

  /** The trail starts at DRAFT, never returns to it, follows the table and ends in the present status. */
  ghost predicate IsTrail(t: seq<Status>, now: Status) {
    && t != [] && t[0] == DRAFT && t[|t| - 1] == now
    && forall i :: 0 < i < |t| ==> Allowed(t[i - 1], t[i]) && t[i] != DRAFT
  }

  lemma NewVersionsAreDrafts(h: HashFunction, s: State, op: Op, v: Id)
    requires v !in s.versions && v in Step(h, s, op).versions
    ensures Step(h, s, op).versions[v].status == DRAFT
  {
  }

  lemma {:induction false} TrailIsTrail(h: HashFunction, ops: seq<Op>, v: Id)
    requires forall op :: op in ops ==> IsPublic(op)
    ensures v in Run(h, ops).versions ==> IsTrail(Trail(h, ops, v), Run(h, ops).versions[v].status)
    ensures v !in Run(h, ops).versions ==> Trail(h, ops, v) == []
    decreases |ops|
  {
    if ops != [] {
      var init, op := ops[..|ops| - 1], ops[|ops| - 1];
      TrailIsTrail(h, init, v);
      RunKeepsInv(h, init);
      if v in Run(h, init).versions {
        StepKeepsRow(h, Run(h, init), op, v);
      } else if v in Run(h, ops).versions {
        NewVersionsAreDrafts(h, Run(h, init), op, v);
      }
    }
  }

  lemma ActiveTrailIsFull(t: seq<Status>)
    requires IsTrail(t, ACTIVE)
    ensures t == [DRAFT, VALIDATING, SIMULATED, APPROVED, ACTIVE]
  {
    var n := |t|;
    assert Before(t, n - 1, ACTIVE, APPROVED) && Before(t, n - 2, APPROVED, SIMULATED);
    assert Before(t, n - 3, SIMULATED, VALIDATING) && Before(t, n - 4, VALIDATING, DRAFT);
  }

  /** Where the trail shows `s` past its start, the one before is `p`. */
  ghost predicate Before(t: seq<Status>, i: int, s: Status, p: Status) {
    0 < i < |t| && t[i] == s && t[i - 1] == p
  }

  /** Every active version went through VALIDATING, SIMULATED and APPROVED, in this order, since it was a draft. */
  lemma {:induction false} ActiveWasReviewed(h: HashFunction, ops: seq<Op>, v: Id)
    requires forall op :: op in ops ==> IsPublic(op)
    requires v in Run(h, ops).versions && Run(h, ops).versions[v].status == ACTIVE
    ensures Trail(h, ops, v) == [DRAFT, VALIDATING, SIMULATED, APPROVED, ACTIVE]
  {
    TrailIsTrail(h, ops, v);
    ActiveTrailIsFull(Trail(h, ops, v));
  }

  // ------------------------------------------------------------------------------ service

  class PolicyService {
    const h: HashFunction
    var policies: Policies
    var versions: Versions
    var nextId: Id

    constructor (h: HashFunction)
      ensures this.h == h && Contents() == EMPTY
    {
      this.h, policies, versions, nextId := h, map[], map[], 0;
    }

    ghost function Contents(): State
      reads this
    {
      State(policies, versions, nextId)
    }

    method EnsurePolicyRow(input: DraftInput) returns (p: Id)
      requires UniqueNames(policies)
      modifies this`policies, this`nextId
      ensures (Contents(), p) == EnsurePolicy(old(Contents()), input)
    {
      ghost var spec := FindPolicy(Contents(), input);
      if q :| q in policies && IsPolicy(policies[q], input) {
        assert SameName(policies[q], policies[spec.value]);
        return q;
      }
      p := nextId;
      policies := policies[p := Policy(input.companyId, input.agentId, input.name, 0, false)];
      nextId := p + 1;
    }

    method AddVersionRow(p: Id, rules: seq<R.RawRule>) returns (v: Id)
      modifies this`versions, this`nextId
      ensures (Contents(), v) == AddVersion(h, old(Contents()), p, rules)
    {
      var latest := V.FindLatest(NumbersOf(versions), p);
      v := nextId;
      versions := versions[v := Version(p, latest + 1, DRAFT, rules, h(Hashed(p, latest + 1, rules)))];
      nextId := v + 1;
    }

    method Draft(input: DraftInput) returns (r: Result<Id>)
      requires UniqueNames(policies)
      modifies this`policies, this`versions, this`nextId
      ensures Contents() == CreateDraft(h, old(Contents()), input).0
      ensures CreateDraft(h, old(Contents()), input).1 == if r.Ok? then Some(r.value) else None
      ensures r.Err? && input.name == "" ==> r.error == INVALID_INPUT
      ensures r.Err? && input.name != "" && !RulesAreValid(input.rules) ==> r.error in {POLICY_INVALID, POLICY_CONFLICT}
      ensures r.Err? && input.name != "" && RulesAreValid(input.rules) ==> r.error == TENANT_ERROR
    {
      if input.name == "" { return Err(INVALID_INPUT); }
      var fault := R.ValidateCompiledRules(input.rules);
      if fault.Some? { return Err(fault.value); }
      if !input.companyExists { return Err(TENANT_ERROR); }
      var p := EnsurePolicyRow(input);
      var v := AddVersionRow(p, input.rules);
      return Ok(v);
    }

    method Move(companyId: string, v: Id, to: Status) returns (r: Result<Id>)
      modifies this`versions
      ensures (Contents(), r) == Transition(old(Contents()), companyId, v, to)
    {
      if v !in versions || versions[v].policyId !in policies || policies[versions[v].policyId].companyId != companyId {
        return Err(NOT_FOUND);
      }
      if !Allowed(versions[v].status, to) { return Err(CONFLICT); }
      versions := versions[v := versions[v].(status := to)];
      return Ok(v);
    }

    method ActivateVersion(companyId: string, v: Id) returns (r: Result<Id>)
      modifies this`versions, this`policies
      ensures (Contents(), r) == Activate(old(Contents()), companyId, v)
    {
      if v !in versions || versions[v].policyId !in policies || policies[versions[v].policyId].companyId != companyId {
        return Err(NOT_FOUND);
      }
      var target := versions[v];
      if !Allowed(target.status, ACTIVE) { return Err(CONFLICT); }
      versions := Supersede(versions, target.policyId);
      versions := versions[v := versions[v].(status := ACTIVE)];
      policies := policies[target.policyId := policies[target.policyId].(currentVersion := target.version, isActive := true)];
      return Ok(v);
    }
  }

  // ------------------------------------------------------------- what each call answers

  /** The transition table, as pairs. */
  lemma TransitionTable(from: Status, to: Status)
    ensures Allowed(from, to) <==>
      || (from, to) in {(DRAFT, VALIDATING), (VALIDATING, SIMULATED), (SIMULATED, APPROVED), (APPROVED, ACTIVE), (ACTIVE, SUPERSEDED)}
      || (from in {VALIDATING, SIMULATED} && to == DRAFT)
      || (from in {DRAFT, VALIDATING, SIMULATED, APPROVED, ACTIVE} && to == DISABLED)
  {
  }

  /** A move is the company's, follows the table, and changes the one status alone. */
  lemma MovesExactly(h: HashFunction, s: State, companyId: string, v: Id, to: Status)
    ensures Step(h, s, OpMove(companyId, v, to)) == Transition(s, companyId, v, to).0
    ensures var (s', r) := Transition(s, companyId, v, to);
      var known := v in s.versions && s.versions[v].policyId in s.policies && s.policies[s.versions[v].policyId].companyId == companyId;
      && (r == Err(NOT_FOUND) <==> !known) && (r == Err(CONFLICT) <==> known && !Allowed(s.versions[v].status, to))
      && (r.Err? ==> s' == s && r.error in {NOT_FOUND, CONFLICT})
      && (r.Ok? ==> r.value == v && s' == s.(versions := s.versions[v := s.versions[v].(status := to)]))
  {
  }

  /** Activation is of an approved version: it becomes ACTIVE, the active one of its policy SUPERSEDED, and the policy names it. */
  lemma ActivatesExactly(h: HashFunction, s: State, companyId: string, v: Id)
    ensures Step(h, s, OpActivate(companyId, v)) == Activate(s, companyId, v).0
    ensures var (s', r) := Activate(s, companyId, v);
      var known := v in s.versions && s.versions[v].policyId in s.policies && s.policies[s.versions[v].policyId].companyId == companyId;
      && (r == Err(NOT_FOUND) <==> !known) && (r == Err(CONFLICT) <==> known && s.versions[v].status != APPROVED)
      && (r.Err? ==> s' == s && r.error in {NOT_FOUND, CONFLICT})
      && (r.Ok? ==>
            var p := s.versions[v].policyId;
            && r.value == v && s'.nextId == s.nextId && s'.versions.Keys == s.versions.Keys
            && s'.versions[v] == s.versions[v].(status := ACTIVE)
            && (forall u :: u in s.versions && u != v ==>
                  s'.versions[u] == if s.versions[u].policyId == p && s.versions[u].status == ACTIVE then s.versions[u].(status := SUPERSEDED) else s.versions[u])
            && s'.policies == s.policies[p := s.policies[p].(currentVersion := s.versions[v].version, isActive := true)])
  {
    TransitionTable(if v in s.versions then s.versions[v].status else DRAFT, ACTIVE);
  }

  ghost predicate HasPolicy(s: State, input: DraftInput) {
    exists p :: p in s.policies && IsPolicy(s.policies[p], input)
  }

  /**
   * A draft needs a name, a known company and well-formed rules. It adds one version, a
   * draft with the rules and their hash, of the policy of that company, agent and name,
   * which is added too if there is none.
   */
  lemma DraftsExactly(h: HashFunction, s: State, input: DraftInput)
    requires Inv(h, s)
    ensures var (s', r) := CreateDraft(h, s, input);
      && Step(h, s, OpDraft(input)) == s'
      && (r.Some? <==>
            && input.name != "" && input.companyExists
            && (forall i :: 0 <= i < |input.rules| ==> input.rules[i].RawRule? && input.rules[i].id != "" && input.rules[i].ruleType.Some?)
            && (forall i, j :: 0 <= i < j < |input.rules| ==> R.RawId(input.rules[i]) != R.RawId(input.rules[j])))
      && (r.None? ==> s' == s)
      && (r.Some? ==>
            var v := r.value;
            && v !in s.versions && v in s'.versions && s'.versions - {v} == s.versions
            && s'.versions[v].status == DRAFT && s'.versions[v].rules == input.rules
            && s'.versions[v].hash == h(Hashed(s'.versions[v].policyId, s'.versions[v].version, input.rules))
            && s'.versions[v].policyId in s'.policies
            && (HasPolicy(s, input) ==> s'.policies == s.policies)
            && (!HasPolicy(s, input) ==> s'.versions[v].policyId !in s.policies && s'.policies - {s'.versions[v].policyId} == s.policies)
            && IsDraftOf(s'.policies[s'.versions[v].policyId], input))
  {
    var (s', r) := CreateDraft(h, s, input);
    if r.Some? {
      EnsurePolicyKeepsInv(h, s, input);
      var (s1, p) := EnsurePolicy(s, input);
      assert s'.versions - {r.value} == s.versions;
      if !HasPolicy(s, input) {
        assert s'.policies - {p} == s.policies;
      }
    }
  }

  predicate IsDraftOf(p: Policy, input: DraftInput) {
    p.companyId == input.companyId && p.agentId == input.agentId && p.name == input.name
  }

  /** A policy made for its first draft has no active version yet. */
  lemma NewPolicyIsInactive(h: HashFunction, s: State, input: DraftInput)
    requires Inv(h, s) && !HasPolicy(s, input) && CreateDraft(h, s, input).1.Some?
    ensures var s' := CreateDraft(h, s, input).0; var v := CreateDraft(h, s, input).1.value;
      v in s'.versions && s'.versions[v].policyId in s'.policies
      && var p := s'.policies[s'.versions[v].policyId]; !p.isActive && p.currentVersion == 0 && s'.versions[v].version == 1
  {
    EnsurePolicyKeepsInv(h, s, input);
    var (s1, p) := EnsurePolicy(s, input);
    assert forall v :: v in s.versions ==> s.versions[v].policyId != p;
  }
}
