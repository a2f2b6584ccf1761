/**
 * Delegated capabilities: a syntactic check of a child against its parent, and what it
 * guarantees about what each capability permits along chains of any length.
 */
module Capabilities {
  import opened Wrappers

  type Id = nat
  type Time = int

  datatype Status = ACTIVE | EXPIRED | REVOKED

  datatype Limits = Limits(single: Option<int>, daily: Option<int>, weekly: Option<int>, monthly: Option<int>)

  /** What a capability grants; an absent value leaves that dimension open. */
  datatype Grant = Grant(
    action: string, asset: Option<string>, network: Option<string>,
    categories: Option<seq<string>>, recipients: Option<seq<string>>,
    limits: Limits, validFrom: Time, expiresAt: Option<Time>)

  datatype Capability = Capability(
    companyId: string, agentId: string, parent: Option<Id>, grant: Grant, status: Status)

  /** The parts of a constitution a capability is compared with. */
  datatype Constitution = Constitution(
    allowedActions: seq<string>, blockedActions: seq<string>, allowedAssets: seq<string>,
    allowedNetworks: seq<string>, allowedCategories: seq<string>, singleLimit: Option<int>)

  type Table = map<Id, Capability>

  datatype CreateInput = CreateInput(companyId: string, agentId: string, grant: Grant, parent: Option<Id>)

  // -------------------------------------------------------------- the two checks

  /** A child limit is present and no larger wherever the parent has one. */
  predicate LimitWithinParent(child: Option<int>, parent: Option<int>) {
    if parent.None? then true else if child.None? then false else child.value <= parent.value
  }

  predicate ScopeWithinParent(child: Option<seq<string>>, parent: Option<seq<string>>) {
    if parent.None? || parent.value == [] then true
    else if child.None? || child.value == [] then false
    else forall c :: c in child.value ==> c in parent.value
  }

  predicate Truthy(s: Option<string>) {
    s.Some? && s.value != ""
  }

  function WithinParent(g: Grant, parent: Capability): Result<()> {
    var p := parent.grant;
    if parent.status != ACTIVE then Err(AUTHORIZATION_ERROR)
    else if p.action != g.action then Err(AUTHORIZATION_ERROR)
    else if Truthy(p.asset) && g.asset != p.asset then Err(AUTHORIZATION_ERROR)
    else if Truthy(p.network) && g.network != p.network then Err(AUTHORIZATION_ERROR)
    else if !ScopeWithinParent(g.categories, p.categories) then Err(AUTHORIZATION_ERROR)
    else if !ScopeWithinParent(g.recipients, p.recipients) then Err(AUTHORIZATION_ERROR)
    else if !LimitWithinParent(g.limits.single, p.limits.single) then Err(AUTHORIZATION_ERROR)
    else if !LimitWithinParent(g.limits.daily, p.limits.daily) then Err(AUTHORIZATION_ERROR)
    else if !LimitWithinParent(g.limits.weekly, p.limits.weekly) then Err(AUTHORIZATION_ERROR)
    else if !LimitWithinParent(g.limits.monthly, p.limits.monthly) then Err(AUTHORIZATION_ERROR)
    else if p.expiresAt.Some? && (g.expiresAt.None? || g.expiresAt.value > p.expiresAt.value) then Err(AUTHORIZATION_ERROR)
    else Ok(())
  }

  function WithinConstitution(g: Grant, c: Constitution): Result<()> {
    if g.action !in c.allowedActions then Err(AUTHORIZATION_ERROR)
    else if g.action in c.blockedActions then Err(AUTHORIZATION_ERROR)
    else if Truthy(g.asset) && c.allowedAssets != [] && g.asset.value !in c.allowedAssets then Err(AUTHORIZATION_ERROR)
    else if Truthy(g.network) && c.allowedNetworks != [] && g.network.value !in c.allowedNetworks then Err(AUTHORIZATION_ERROR)
    else if g.categories.Some? && c.allowedCategories != [] && exists x :: x in g.categories.value && x !in c.allowedCategories
    then Err(AUTHORIZATION_ERROR)
    else if c.singleLimit.Some? && g.limits.single.Some? && g.limits.single.value > c.singleLimit.value then Err(AUTHORIZATION_ERROR)
    else Ok(())
  }

  // ------------------------------------------------------------------ operations

  /** The agents of each company, and each agent's active constitution if it has one. */
  datatype Tenancy = Tenancy(agents: set<(string, string)>, constitutions: map<(string, string), Constitution>)

  function Create(t: Table, tenancy: Tenancy, input: CreateInput, id: Id): (Table, Result<Id>) {
    var owner := (input.companyId, input.agentId);
    if owner !in tenancy.agents then (t, Err(TENANT_ERROR))
    else if owner in tenancy.constitutions && WithinConstitution(input.grant, tenancy.constitutions[owner]).Err?
    then (t, Err(AUTHORIZATION_ERROR))
    else if input.parent.Some? && !ParentFound(t, input) then (t, Err(TENANT_ERROR))
    else if input.parent.Some? && WithinParent(input.grant, t[input.parent.value]).Err? then (t, Err(AUTHORIZATION_ERROR))
    else if id in t then (t, Err(CONFLICT))
    else (t[id := Capability(input.companyId, input.agentId, input.parent, input.grant, ACTIVE)], Ok(id))
  }

  predicate ParentFound(t: Table, input: CreateInput)
    requires input.parent.Some?
  {
    && input.parent.value in t
    && t[input.parent.value].companyId == input.companyId && t[input.parent.value].agentId == input.agentId
  }

  predicate Expired(g: Grant, now: Time) {
    g.expiresAt.Some? && g.expiresAt.value <= now
  }

  function Validate(t: Table, companyId: string, id: Id, now: Time): Result<Capability> {
    if id !in t || t[id].companyId != companyId then Err(CAPABILITY_INVALID)
    else if t[id].status == REVOKED then Err(CAPABILITY_INVALID)
    else if t[id].status == EXPIRED || Expired(t[id].grant, now) then Err(CAPABILITY_EXPIRED)
    else if t[id].grant.validFrom > now then Err(CAPABILITY_INVALID)
    else Ok(t[id])
  }

  function Revoked(c: Capability, hit: bool): Capability {
    if hit then c.(status := REVOKED) else c
  }

  function Revoke(t: Table, companyId: string, id: Id): (Table, Result<Id>) {
    if id !in t || t[id].companyId != companyId then (t, Err(CAPABILITY_INVALID))
    else
      (map c | c in t :: Revoked(t[c], c == id || (t[c].companyId == companyId && t[c].parent == Some(id) && t[c].status == ACTIVE)),
       Ok(id))
  }

  function Expire(t: Table, companyId: string, now: Time): Table {
    map c | c in t ::
      if t[c].companyId == companyId && t[c].status == ACTIVE && Expired(t[c].grant, now) then t[c].(status := EXPIRED) else t[c]
  }

  datatype Op =
    | OpCreate(tenancy: Tenancy, input: CreateInput, id: Id)
    | OpRevoke(companyId: string, id: Id)
    | OpExpire(companyId: string, now: Time)

  function Step(t: Table, op: Op): Table {
    match op
    case OpCreate(tenancy, input, id) => Create(t, tenancy, input, id).0
    case OpRevoke(companyId, id) => Revoke(t, companyId, id).0
    case OpExpire(companyId, now) => Expire(t, companyId, now)
  }

  function Run(t: Table, ops: seq<Op>): Table
    decreases |ops|
  {
    if ops == [] then t else Run(Step(t, ops[0]), ops[1..])
  }

  // ------------------------------------------------------------------- semantics

  /** A use of a capability: what is done, and the amounts it would bring each total to. */
  datatype Use = Use(
    action: string, asset: string, network: string, category: string, recipient: string,
    single: int, daily: int, weekly: int, monthly: int, at: Time)

  predicate UnderLimit(amount: int, limit: Option<int>) {
    limit.None? || amount <= limit.value
  }

  predicate InScope(x: string, scope: Option<seq<string>>) {
    scope.None? || scope.value == [] || x in scope.value
  }

  predicate Permits(g: Grant, u: Use) {
    && u.action == g.action
    && (Truthy(g.asset) ==> u.asset == g.asset.value)
    && (Truthy(g.network) ==> u.network == g.network.value)
    && InScope(u.category, g.categories) && InScope(u.recipient, g.recipients)
    && UnderLimit(u.single, g.limits.single) && UnderLimit(u.daily, g.limits.daily)
    && UnderLimit(u.weekly, g.limits.weekly) && UnderLimit(u.monthly, g.limits.monthly)
    && !Expired(g, u.at)
  }

  /** Everything `g` permits, `p` permits. */
  ghost predicate Contained(g: Grant, p: Grant) {
    forall u :: Permits(g, u) ==> Permits(p, u)
  }

  /** The check is sound: it admits only grants contained in the parent's, which expire no later. */
  lemma WithinParentContains(g: Grant, parent: Capability)
    requires WithinParent(g, parent).Ok?
    ensures Contained(g, parent.grant)
    ensures forall now :: Expired(parent.grant, now) ==> Expired(g, now)
  {
  }

  /** A string that is in none of the list. */
  function Outside(xs: seq<string>): (r: string)
    ensures forall i :: 0 <= i < |xs| ==> |xs[i]| < |r|
  {
    if xs == [] then "*" else
      var rest := Outside(xs[1..]);
      if |xs[0]| < |rest| then rest else xs[0] + "*"
  }

  function Pick(scope: Option<seq<string>>): string {
    if scope.Some? && scope.value != [] then scope.value[0] else "*"
  }

  function Most(limit: Option<int>): int {
    if limit.Some? then limit.value else 0
  }

  /** A use every grant permits: at its limits, just before it expires. */
  function Typical(g: Grant): (u: Use)
    ensures Permits(g, u)
  {
    Use(g.action, if Truthy(g.asset) then g.asset.value else "*", if Truthy(g.network) then g.network.value else "*",
        Pick(g.categories), Pick(g.recipients),
        Most(g.limits.single), Most(g.limits.daily), Most(g.limits.weekly), Most(g.limits.monthly),
        if g.expiresAt.Some? then g.expiresAt.value - 1 else 0)
  }

  /** A use of `g` whose category (or recipient) lies outside the parent's scope, if the check finds one. */
  function Stray(child: Option<seq<string>>, parent: Option<seq<string>>): (x: string)
    requires !ScopeWithinParent(child, parent)
    ensures InScope(x, child) && !InScope(x, parent)
  {
    if child.None? || child.value == [] then
      var x := Outside(parent.value);
      assert x !in parent.value;
      x
    else FirstOutside(child.value, parent.value)
  }

  function FirstOutside(xs: seq<string>, ys: seq<string>): (x: string)
    requires exists c :: c in xs && c !in ys
    ensures x in xs && x !in ys
  {
    if xs[0] !in ys then xs[0] else FirstOutside(xs[1..], ys)
  }

  function Excess(child: Option<int>, parent: Option<int>): (x: int)
    requires !LimitWithinParent(child, parent)
    ensures UnderLimit(x, child) && !UnderLimit(x, parent)
  {
    parent.value + 1
  }

  function Other(s: string): (r: string)
    ensures r != s
  {
    s + "*"
  }

  /** A use that a refused grant would permit although the parent does not. */
  function Escape(g: Grant, parent: Capability): (u: Use)
    requires parent.status == ACTIVE && WithinParent(g, parent).Err?
    ensures Permits(g, u) && !Permits(parent.grant, u)
  {
    var p, u := parent.grant, Typical(g);
    if p.action != g.action then u
    else if Truthy(p.asset) && g.asset != p.asset then (if Truthy(g.asset) then u else u.(asset := Other(p.asset.value)))
    else if Truthy(p.network) && g.network != p.network then (if Truthy(g.network) then u else u.(network := Other(p.network.value)))
    else if !ScopeWithinParent(g.categories, p.categories) then u.(category := Stray(g.categories, p.categories))
    else if !ScopeWithinParent(g.recipients, p.recipients) then u.(recipient := Stray(g.recipients, p.recipients))
    else if !LimitWithinParent(g.limits.single, p.limits.single) then u.(single := Excess(g.limits.single, p.limits.single))
    else if !LimitWithinParent(g.limits.daily, p.limits.daily) then u.(daily := Excess(g.limits.daily, p.limits.daily))
    else if !LimitWithinParent(g.limits.weekly, p.limits.weekly) then u.(weekly := Excess(g.limits.weekly, p.limits.weekly))
    else if !LimitWithinParent(g.limits.monthly, p.limits.monthly) then u.(monthly := Excess(g.limits.monthly, p.limits.monthly))
    else u.(at := p.expiresAt.value)
  }

  /** The check is exact: under an active parent it admits precisely the contained grants. */
  lemma WithinParentIffContained(g: Grant, parent: Capability)
    requires parent.status == ACTIVE
    ensures WithinParent(g, parent).Ok? <==> Contained(g, parent.grant)
  {
    if WithinParent(g, parent).Ok? {
      WithinParentContains(g, parent);
    } else {
      var u := Escape(g, parent);
      assert Permits(g, u) && !Permits(parent.grant, u);
    }
  }

  // ------------------------------------------------------------- the constitution

  /** What a constitution asks of a grant, where both name a dimension. */
  ghost predicate MeetsConstitution(g: Grant, c: Constitution) {
    && g.action in c.allowedActions && g.action !in c.blockedActions
    && (g.asset.Some? && g.asset.value != "" && |c.allowedAssets| > 0 ==> g.asset.value in c.allowedAssets)
    && (g.network.Some? && g.network.value != "" && |c.allowedNetworks| > 0 ==> g.network.value in c.allowedNetworks)
    && (g.categories.Some? && |c.allowedCategories| > 0 ==> forall x :: x in g.categories.value ==> x in c.allowedCategories)
    && (g.limits.single.Some? && c.singleLimit.Some? ==> g.limits.single.value <= c.singleLimit.value)
  }

  /**
   * A capability is created exactly when its agent is known, its grant meets the agent's
   * constitution if there is one, and its parent, if it names one, is a capability of the
   * same agent that admits it; it is then stored active with all it was asked for.
   */
  lemma CreatesExactly(t: Table, tenancy: Tenancy, input: CreateInput, id: Id)
    requires id !in t
    ensures var (t', r) := Create(t, tenancy, input, id); var owner := (input.companyId, input.agentId);
      && (r.Ok? <==>
            && owner in tenancy.agents
            && (owner in tenancy.constitutions ==> MeetsConstitution(input.grant, tenancy.constitutions[owner]))
            && (input.parent.Some? ==>
                  && input.parent.value in t && t[input.parent.value].companyId == input.companyId
                  && t[input.parent.value].agentId == input.agentId && WithinParent(input.grant, t[input.parent.value]).Ok?))
      && (r.Ok? ==> r.value == id && t' == t[id := Capability(input.companyId, input.agentId, input.parent, input.grant, ACTIVE)])
      && (r.Err? ==> t' == t && r.error in {TENANT_ERROR, AUTHORIZATION_ERROR})
      && Step(t, OpCreate(tenancy, input, id)) == t'
      && (owner !in tenancy.agents ==> r == Err(TENANT_ERROR))
      && (owner in tenancy.agents && owner in tenancy.constitutions && !MeetsConstitution(input.grant, tenancy.constitutions[owner]) ==>
            r == Err(AUTHORIZATION_ERROR))
  {
    var owner := (input.companyId, input.agentId);
    if owner in tenancy.constitutions {
      ConstitutionIsMet(input.grant, tenancy.constitutions[owner]);
    }
  }

  lemma ConstitutionIsMet(g: Grant, c: Constitution)
    ensures WithinConstitution(g, c) == if MeetsConstitution(g, c) then Ok(()) else Err(AUTHORIZATION_ERROR)
  {
  }

  /** A parent that is not active admits nothing, and whatever is not admitted is an authorization error. */
  lemma InactiveParentAdmitsNothing(g: Grant, parent: Capability)
    ensures parent.status != ACTIVE ==> WithinParent(g, parent).Err?
    ensures WithinParent(g, parent).Err? ==> WithinParent(g, parent).error == AUTHORIZATION_ERROR
  {
  }

  // ------------------------------------------------------------ chains and runs

  /** Each id in the path names its successor as its parent. */
  predicate Lineage(t: Table, path: seq<Id>) {
    && |path| > 0
    && (forall i :: 0 <= i < |path| ==> path[i] in t)
    && (forall i :: 0 <= i < |path| - 1 ==> t[path[i]].parent == Some(path[i + 1]))
  }

  /** Every stored child is contained in its stored parent and belongs to the same agent. */
  ghost predicate Inv(t: Table) {
    forall c :: c in t && t[c].parent.Some? ==>
      && t[c].parent.value in t
      && Contained(t[c].grant, t[t[c].parent.value].grant)
      && (forall now :: Expired(t[t[c].parent.value].grant, now) ==> Expired(t[c].grant, now))
      && t[c].companyId == t[t[c].parent.value].companyId && t[c].agentId == t[t[c].parent.value].agentId
  }

  /** Rows are only added or change status. */
  ghost predicate Extends(t: Table, t': Table) {
    forall c :: c in t ==> c in t' && t'[c] == t[c].(status := t'[c].status)
  }

  lemma StepKeepsInv(t: Table, op: Op)
    requires Inv(t)
    ensures Inv(Step(t, op)) && Extends(t, Step(t, op))
  {
    var t' := Step(t, op);
    if op.OpCreate? {
      if t' != t {
        if op.input.parent.Some? {
          WithinParentContains(op.input.grant, t[op.input.parent.value]);
        }
        forall c | c in t' && t'[c].parent.Some?
          ensures t'[c].parent.value in t' && Contained(t'[c].grant, t'[t'[c].parent.value].grant)
          ensures forall now :: Expired(t'[t'[c].parent.value].grant, now) ==> Expired(t'[c].grant, now)
          ensures t'[c].companyId == t'[t'[c].parent.value].companyId && t'[c].agentId == t'[t'[c].parent.value].agentId
        {
          assert c != op.id ==> t'[c] == t[c];
        }
      }
    } else {
      assert forall c :: c in t' <==> c in t;
      assert forall c :: c in t ==> t'[c] == t[c].(status := t'[c].status);
    }
  }

  lemma {:induction false} RunKeepsInv(t: Table, ops: seq<Op>)
    requires Inv(t)
    ensures Inv(Run(t, ops)) && Extends(t, Run(t, ops))
    decreases |ops|
  {
    if ops != [] {
      StepKeepsInv(t, ops[0]);
      RunKeepsInv(Step(t, ops[0]), ops[1..]);
    }
  }

  lemma {:induction false} LineageContains(t: Table, path: seq<Id>)
    requires Inv(t) && Lineage(t, path)
    ensures var ancestor := t[path[|path| - 1]];
      && Contained(t[path[0]].grant, ancestor.grant)
      && (forall now :: Expired(ancestor.grant, now) ==> Expired(t[path[0]].grant, now))
    decreases |path|
  {
    if |path| > 1 {
      var rest := path[1..];
      assert Lineage(t, rest) by {
        assert forall i :: 0 <= i < |rest| ==> rest[i] == path[i + 1];
      }
      LineageContains(t, rest);
      var child, parent, ancestor := t[path[0]].grant, t[path[1]].grant, t[path[|path| - 1]].grant;
      forall u | Permits(child, u) ensures Permits(ancestor, u) {
        assert Contained(child, parent) && Contained(parent, ancestor);
      }
    }
  }

  /**
   * For chains of any length in any run: a capability permits only what every ancestor
   * permits, and if its expiry has not passed then no ancestor's has.
   */
  lemma {:induction false} DelegationNeverExpands(ops: seq<Op>, path: seq<Id>, i: nat, u: Use, now: Time)
    requires Lineage(Run(map[], ops), path) && i < |path|
    ensures var t := Run(map[], ops);
      && (Permits(t[path[0]].grant, u) ==> Permits(t[path[i]].grant, u))
      && (!Expired(t[path[0]].grant, now) ==> !Expired(t[path[i]].grant, now))
  {
    RunKeepsInv(map[], ops);
    var t := Run(map[], ops);
    var prefix := path[..i + 1];
    assert Lineage(t, prefix) by {
      assert forall j :: 0 <= j <= i ==> prefix[j] == path[j];
    }
    LineageContains(t, prefix);
  }

  /** Containment once established holds for the rest of the run: grants and parents never change. */
  lemma {:induction false} ContainmentIsPermanent(ops: seq<Op>, more: seq<Op>, path: seq<Id>)
    requires Lineage(Run(map[], ops), path)
    ensures var t := Run(map[], ops); var t' := Run(t, more);
      && Lineage(t', path)
      && (forall i :: 0 <= i < |path| ==> t'[path[i]].grant == t[path[i]].grant)
      && Contained(t'[path[0]].grant, t'[path[|path| - 1]].grant)
  {
    RunKeepsInv(map[], ops);
    var t := Run(map[], ops);
    RunKeepsInv(t, more);
    LineageContains(Run(t, more), path);
  }

  /** Validation is fail closed: it succeeds exactly for an active, started, unexpired capability of the company. */
  lemma ValidateIsFailClosed(t: Table, companyId: string, id: Id, now: Time)
    ensures Validate(t, companyId, id, now).Ok? <==>
      id in t && t[id].companyId == companyId && t[id].status == ACTIVE && t[id].grant.validFrom <= now && !Expired(t[id].grant, now)
  {
  }

  // ------------------------------------------------------------------ revocation

  /** Parents come before their children in some numbering, so no capability is its own ancestor. */
  ghost predicate Ranks(t: Table, rank: map<Id, nat>) {
    && rank.Keys == t.Keys
    && forall c :: c in t && t[c].parent.Some? ==> t[c].parent.value in t && rank[t[c].parent.value] < rank[c]
  }

  ghost predicate Rooted(t: Table) {
    exists rank :: Ranks(t, rank)
  }

  lemma StepKeepsRooted(t: Table, op: Op)
    requires Rooted(t)
    ensures Rooted(Step(t, op))
  {
    var rank :| Ranks(t, rank);
    var t' := Step(t, op);
    if op.OpCreate? && t' != t {
      CreateRanks(t, op.tenancy, op.input, op.id, rank);
    } else {
      assert Ranks(t', rank);
    }
  }

  lemma CreateRanks(t: Table, tenancy: Tenancy, input: CreateInput, id: Id, rank: map<Id, nat>)
    requires Ranks(t, rank) && Create(t, tenancy, input, id).0 != t
    ensures Rooted(Create(t, tenancy, input, id).0)
  {
    assert Ranks(Create(t, tenancy, input, id).0, rank[id := if input.parent.Some? then rank[input.parent.value] + 1 else 0]);
  }

  lemma {:induction false} RunKeepsRooted(t: Table, ops: seq<Op>)
    requires Rooted(t)
    ensures Rooted(Run(t, ops))
    decreases |ops|
  {
    if ops != [] {
      StepKeepsRooted(t, ops[0]);
      RunKeepsRooted(Step(t, ops[0]), ops[1..]);
    }
  }

  /** Every table that the operations can lead to has both properties. */
  lemma {:induction false} ReachableIsRooted(ops: seq<Op>)
    ensures Inv(Run(map[], ops)) && Rooted(Run(map[], ops))
  {
    assert Ranks(map[], map[]);
    RunKeepsInv(map[], ops);
    RunKeepsRooted(map[], ops);
  }

  /** The promise: no active capability has a revoked parent. */
  ghost predicate NoneUnderRevoked(t: Table) {
    forall c :: c in t && t[c].status == ACTIVE && t[c].parent.Some? && t[c].parent.value in t ==> t[t[c].parent.value].status != REVOKED
  }

  /** An active child of an active child of `id`. */
  predicate IsActiveGrandchild(t: Table, id: Id, g: Id) {
    && g in t && t[g].status == ACTIVE && t[g].parent.Some?
    && t[g].parent.value in t && t[t[g].parent.value].status == ACTIVE && t[t[g].parent.value].parent == Some(id)
  }

  /** On the ranked table a grandchild is neither the capability itself nor its child. */
  lemma GrandchildIsBelow(t: Table, id: Id, g: Id)
    requires Rooted(t) && id in t && IsActiveGrandchild(t, id, g)
    ensures g != id && t[g].parent != Some(id)
  {
    var rank :| Ranks(t, rank);
    assert rank[id] < rank[t[g].parent.value] < rank[g];
  }

  /**
   * A successful revocation keeps the promise if and only if the capability has no active
   * grandchild through an active child.
   */
  lemma RevokeKeepsPromiseIffNoGrandchild(t: Table, companyId: string, id: Id)
    requires Inv(t) && Rooted(t) && NoneUnderRevoked(t) && Revoke(t, companyId, id).1.Ok?
    ensures NoneUnderRevoked(Revoke(t, companyId, id).0) <==> forall g: Id :: !IsActiveGrandchild(t, id, g)
  {
    var t' := Revoke(t, companyId, id).0;
    if g: Id :| IsActiveGrandchild(t, id, g) {
      GrandchildIsBelow(t, id, g);
      assert t'[g].status == ACTIVE && t'[t[g].parent.value].status == REVOKED;
    }
    if (forall g: Id :: !IsActiveGrandchild(t, id, g)) {
      forall c | c in t' && t'[c].status == ACTIVE && t'[c].parent.Some? && t'[c].parent.value in t'
        ensures t'[t'[c].parent.value].status != REVOKED
      {
        assert !IsActiveGrandchild(t, id, c);
      }
    }
  }

  /** The other two operations never break it. */
  lemma OthersKeepPromise(t: Table, op: Op)
    requires Inv(t) && NoneUnderRevoked(t) && !op.OpRevoke?
    ensures NoneUnderRevoked(Step(t, op))
  {
    var t' := Step(t, op);
    forall c | c in t' && t'[c].status == ACTIVE && t'[c].parent.Some? && t'[c].parent.value in t'
      ensures t'[t'[c].parent.value].status != REVOKED
    {
      if op.OpCreate? && c == op.id && t' != t {
        assert t[t'[c].parent.value].status == ACTIVE;
      } else {
        assert t[c].status == ACTIVE && t[c].parent == t'[c].parent;
      }
    }
  }

  /** The operation revokes nothing that has an active grandchild. */
  ghost predicate SparesGrandchildren(t: Table, op: Op) {
    op.OpRevoke? && Revoke(t, op.companyId, op.id).1.Ok? ==> forall g: Id :: !IsActiveGrandchild(t, op.id, g)
  }

  /** The promise holds now and after every operation. */
  ghost predicate PromiseHolds(t: Table, ops: seq<Op>)
    decreases |ops|
  {
    NoneUnderRevoked(t) && (ops != [] ==> PromiseHolds(Step(t, ops[0]), ops[1..]))
  }

  ghost predicate AllSpare(t: Table, ops: seq<Op>)
    decreases |ops|
  {
    ops != [] ==> SparesGrandchildren(t, ops[0]) && AllSpare(Step(t, ops[0]), ops[1..])
  }

  lemma StepKeepsPromiseIffSpares(t: Table, op: Op)
    requires Inv(t) && Rooted(t) && NoneUnderRevoked(t)
    ensures NoneUnderRevoked(Step(t, op)) <==> SparesGrandchildren(t, op)
  {
    if op.OpRevoke? {
      if Revoke(t, op.companyId, op.id).1.Ok? {
        RevokeKeepsPromiseIffNoGrandchild(t, op.companyId, op.id);
      }
    } else {
      OthersKeepPromise(t, op);
    }
  }

  /** Throughout a run the promise holds if and only if no revocation in it meets an active grandchild. */
  lemma {:induction false} PromiseHoldsIffAllSpare(t: Table, ops: seq<Op>)
    requires Inv(t) && Rooted(t) && NoneUnderRevoked(t)
    ensures PromiseHolds(t, ops) <==> AllSpare(t, ops)
    decreases |ops|
  {
    if ops != [] {
      var t' := Step(t, ops[0]);
      StepKeepsPromiseIffSpares(t, ops[0]);
      if NoneUnderRevoked(t') {
        StepKeepsInv(t, ops[0]);
        StepKeepsRooted(t, ops[0]);
        PromiseHoldsIffAllSpare(t', ops[1..]);
      }
    }
  }

  // ------------------------------------------------------- revocation along lineages

  /** The full promise: no active capability has a revoked ancestor at any distance. */
  ghost predicate NoneBelowRevoked(t: Table) {
    forall path :: Lineage(t, path) && t[path[0]].status == ACTIVE ==> t[path[|path| - 1]].status != REVOKED
  }

  /** The path leads from an active capability to `id` in two steps or more. */
  predicate IsDeepLine(t: Table, path: seq<Id>, id: Id) {
    Lineage(t, path) && |path| >= 3 && t[path[0]].status == ACTIVE && path[|path| - 1] == id
  }

  lemma {:induction false} RanksGrow(t: Table, rank: map<Id, nat>, path: seq<Id>)
    requires Ranks(t, rank) && Lineage(t, path)
    ensures |path| > 1 ==> rank[path[|path| - 1]] < rank[path[0]]
    decreases |path|
  {
    if |path| > 1 {
      LineageTail(t, path);
      RanksGrow(t, rank, path[1..]);
    }
  }

  lemma LineageTail(t: Table, path: seq<Id>)
    requires Lineage(t, path) && |path| > 1
    ensures Lineage(t, path[1..]) && t[path[0]].parent == Some(path[1])
  {
    var rest := path[1..];
    assert forall i :: 0 <= i < |rest| ==> rest[i] == path[i + 1];
  }

  /** A descendant at distance two or more is not touched, and stays as valid as it was. */
  lemma DeepDescendantsAreSpared(t: Table, companyId: string, path: seq<Id>, now: Time)
    requires Rooted(t) && Lineage(t, path) && |path| >= 3 && Revoke(t, companyId, path[|path| - 1]).1.Ok?
    ensures var t' := Revoke(t, companyId, path[|path| - 1]).0;
      && path[0] in t' && t'[path[0]] == t[path[0]] && Lineage(t', path) && t'[path[|path| - 1]].status == REVOKED
      && Validate(t', companyId, path[0], now) == Validate(t, companyId, path[0], now)
  {
    var rank :| Ranks(t, rank);
    RanksGrow(t, rank, path);
    LineageTail(t, path);
    RanksGrow(t, rank, path[1..]);
  }

  lemma LineageBefore(t: Table, companyId: string, id: Id, path: seq<Id>)
    requires Revoke(t, companyId, id).1.Ok? && Lineage(Revoke(t, companyId, id).0, path)
    ensures Lineage(t, path)
  {
    var t' := Revoke(t, companyId, id).0;
    assert forall c :: c in t' ==> c in t && t'[c].parent == t[c].parent;
  }

  /** An active descendant of a capability that this revocation reached lies on a line to `id` of two steps or more. */
  lemma SurvivorIsDeep(t: Table, companyId: string, id: Id, path: seq<Id>) returns (deep: seq<Id>)
    requires Revoke(t, companyId, id).1.Ok? && Inv(t) && NoneBelowRevoked(t)
    requires var t' := Revoke(t, companyId, id).0;
      Lineage(t', path) && t'[path[0]].status == ACTIVE && t'[path[|path| - 1]].status == REVOKED
    ensures IsDeepLine(t, deep, id)
  {
    LineageBefore(t, companyId, id, path);
    var last := path[|path| - 1];
    assert t[path[0]].status == ACTIVE && t[last].status != REVOKED;
    if last == id {
      deep := path;
    } else {
      deep := path + [id];
      assert Lineage(t, deep) by {
        assert forall i :: 0 <= i < |path| ==> deep[i] == path[i];
      }
    }
    assert |path| > 1;
    LineageTail(t, path);
    assert t[path[0]].companyId == t[path[1]].companyId;
  }

  /**
   * Along lineages of any length: a successful revocation keeps the full promise if and
   * only if no active capability lies two steps or more below the revoked one.
   */
  lemma RevokeKeepsLineagesIffNoneDeep(t: Table, companyId: string, id: Id)
    requires Inv(t) && Rooted(t) && NoneBelowRevoked(t) && Revoke(t, companyId, id).1.Ok?
    ensures NoneBelowRevoked(Revoke(t, companyId, id).0) <==> forall path :: !IsDeepLine(t, path, id)
  {
    var t' := Revoke(t, companyId, id).0;
    if path :| IsDeepLine(t, path, id) {
      DeepDescendantsAreSpared(t, companyId, path, 0);
      assert Lineage(t', path) && t'[path[0]].status == ACTIVE;
    }
    if path :| Lineage(t', path) && t'[path[0]].status == ACTIVE && t'[path[|path| - 1]].status == REVOKED {
      var deep := SurvivorIsDeep(t, companyId, id, path);
      assert IsDeepLine(t, deep, id);
    }
  }

  lemma GrantIsWithinItself(g: Grant, parent: Capability)
    requires parent.grant == g && parent.status == ACTIVE
    ensures WithinParent(g, parent).Ok?
  {
  }

  /** For every usable grant: root, child and grandchild, the root revoked, and the grandchild still validates under a revoked parent. */
  lemma GrandchildOutlivesRevokedParent(tenancy: Tenancy, companyId: string, agentId: string, g: Grant, now: Time)
    requires (companyId, agentId) in tenancy.agents && (companyId, agentId) !in tenancy.constitutions
    requires g.validFrom <= now && !Expired(g, now)
    ensures var t := Run(map[], [
        OpCreate(tenancy, CreateInput(companyId, agentId, g, None), 0),
        OpCreate(tenancy, CreateInput(companyId, agentId, g, Some(0)), 1),
        OpCreate(tenancy, CreateInput(companyId, agentId, g, Some(1)), 2),
        OpRevoke(companyId, 0)]);
      && 1 in t && 2 in t && t[2].parent == Some(1) && t[1].status == REVOKED
      && Validate(t, companyId, 2, now).Ok? && !NoneUnderRevoked(t)
  {
    var o0 := OpCreate(tenancy, CreateInput(companyId, agentId, g, None), 0);
    var o1 := OpCreate(tenancy, CreateInput(companyId, agentId, g, Some(0)), 1);
    var o2 := OpCreate(tenancy, CreateInput(companyId, agentId, g, Some(1)), 2);
    var o3 := OpRevoke(companyId, 0);
    var row := Capability(companyId, agentId, None, g, ACTIVE);
    GrantIsWithinItself(g, row);
    GrantIsWithinItself(g, row.(parent := Some(0)));
    var t1 := Step(map[], o0);
    assert t1 == map[0 := row];
    var t2 := Step(t1, o1);
    assert t2 == map[0 := row, 1 := row.(parent := Some(0))];
    var t3 := Step(t2, o2);
    assert t3 == map[0 := row, 1 := row.(parent := Some(0)), 2 := row.(parent := Some(1))];
    RunOfFour(map[], o0, o1, o2, o3);
    var t := Step(t3, o3);
    assert t[2].status == ACTIVE && t[t[2].parent.value].status == REVOKED;
  }

  lemma {:induction false} RunOfFour(t: Table, a: Op, b: Op, c: Op, d: Op)
    ensures Run(t, [a, b, c, d]) == Step(Step(Step(Step(t, a), b), c), d)
  {
    assert [a, b, c, d][1..] == [b, c, d] && [b, c, d][1..] == [c, d] && [c, d][1..] == [d] && [d][1..] == [];
    var t1 := Step(t, a);
    var t2 := Step(t1, b);
    var t3 := Step(t2, c);
    assert Run(t3, [d]) == Step(t3, d);
    assert Run(t2, [c, d]) == Run(t3, [d]);
    assert Run(t1, [b, c, d]) == Run(t2, [c, d]);
  }

  // --------------------------------------------------------------- the service

  class CapabilityService {
    var capabilities: Table
    var nextId: Id

    ghost predicate Valid()
      reads this
    {
      Inv(capabilities) && forall c :: c in capabilities ==> c < nextId
    }

    constructor ()
      ensures Valid() && capabilities == map[]
    {
      capabilities, nextId := map[], 0;
    }

    method CreateCapability(tenancy: Tenancy, input: CreateInput) returns (r: Result<Id>)
      requires Valid()
      modifies this
      ensures Valid()
      ensures (capabilities, r) == Create(old(capabilities), tenancy, input, old(nextId))
    {
      StepKeepsInv(capabilities, OpCreate(tenancy, input, nextId));
      var owner := (input.companyId, input.agentId);
      if owner !in tenancy.agents { return Err(TENANT_ERROR); }
      if owner in tenancy.constitutions {
        var ok := WithinConstitution(input.grant, tenancy.constitutions[owner]);
        if ok.Err? { return Err(ok.error); }
      }
      if input.parent.Some? {
        if !ParentFound(capabilities, input) { return Err(TENANT_ERROR); }
        var ok := WithinParent(input.grant, capabilities[input.parent.value]);
        if ok.Err? { return Err(ok.error); }
      }
      capabilities := capabilities[nextId := Capability(input.companyId, input.agentId, input.parent, input.grant, ACTIVE)];
      nextId := nextId + 1;
      r := Ok(nextId - 1);
    }

    method ValidateCapability(companyId: string, id: Id, now: Time) returns (r: Result<Capability>)
      ensures r == Validate(capabilities, companyId, id, now)
    {
      if id !in capabilities || capabilities[id].companyId != companyId { return Err(CAPABILITY_INVALID); }
      var cap := capabilities[id];
      if cap.status == REVOKED { return Err(CAPABILITY_INVALID); }
      if cap.status == EXPIRED || Expired(cap.grant, now) { return Err(CAPABILITY_EXPIRED); }
      if cap.grant.validFrom > now { return Err(CAPABILITY_INVALID); }
      return Ok(cap);
    }

    method RevokeCapability(companyId: string, id: Id) returns (r: Result<Id>)
      requires Valid()
      modifies this
      ensures Valid()
      ensures (capabilities, r) == Revoke(old(capabilities), companyId, id)
      ensures r.Ok? <==> id in old(capabilities) && old(capabilities)[id].companyId == companyId
      ensures r.Err? ==> capabilities == old(capabilities)
      ensures r.Ok? ==> capabilities.Keys == old(capabilities).Keys && forall c :: c in capabilities ==>
        if c == id || (old(capabilities)[c].companyId == companyId && old(capabilities)[c].parent == Some(id) && old(capabilities)[c].status == ACTIVE)
        then capabilities[c] == old(capabilities)[c].(status := REVOKED)
        else capabilities[c] == old(capabilities)[c]
    {
      StepKeepsInv(capabilities, OpRevoke(companyId, id));
      if id !in capabilities || capabilities[id].companyId != companyId { return Err(CAPABILITY_INVALID); }
      var before := capabilities;
      // The children first, then the capability itself.
      capabilities := map c | c in capabilities ::
        Revoked(capabilities[c], capabilities[c].companyId == companyId && capabilities[c].parent == Some(id) && capabilities[c].status == ACTIVE);
      capabilities := capabilities[id := capabilities[id].(status := REVOKED)];
      assert capabilities == Revoke(before, companyId, id).0;
      r := Ok(id);
    }

    method ExpireCapabilities(companyId: string, now: Time)
      requires Valid()
      modifies this
      ensures Valid()
      ensures capabilities == Expire(old(capabilities), companyId, now)
      ensures capabilities.Keys == old(capabilities).Keys
      ensures forall c :: c in capabilities ==>
        if old(capabilities)[c].status == ACTIVE && old(capabilities)[c].companyId == companyId && Expired(old(capabilities)[c].grant, now)
        then capabilities[c] == old(capabilities)[c].(status := EXPIRED)
        else capabilities[c] == old(capabilities)[c]
    {
      StepKeepsInv(capabilities, OpExpire(companyId, now));
      capabilities := map c | c in capabilities ::
        if capabilities[c].companyId == companyId && capabilities[c].status == ACTIVE && Expired(capabilities[c].grant, now)
        then capabilities[c].(status := EXPIRED) else capabilities[c];
    }
  }

  // ------------------------------------------------------------- what each call answers

  /** Why a capability does not count. */
  lemma ValidateSaysWhy(t: Table, companyId: string, id: Id, now: Time)
    ensures var r := Validate(t, companyId, id, now); var known := id in t && t[id].companyId == companyId;
      && (r == Err(CAPABILITY_EXPIRED) <==>
            known && t[id].status != REVOKED
            && (t[id].status == EXPIRED || (t[id].grant.expiresAt.Some? && t[id].grant.expiresAt.value <= now)))
      && (r.Err? ==> r.error in {CAPABILITY_EXPIRED, CAPABILITY_INVALID})
      && (r.Ok? ==> r.value == t[id])
  {
  }

  /** A revocation: refused to others, else the capability and its active children of the company are REVOKED and no row else changes. */
  lemma RevokesExactly(t: Table, companyId: string, id: Id)
    ensures var (t', r) := Revoke(t, companyId, id);
      && Step(t, OpRevoke(companyId, id)) == t'
      && (r.Err? <==> !(id in t && t[id].companyId == companyId)) && (r.Err? ==> r.error == CAPABILITY_INVALID && t' == t)
      && (r.Ok? ==> r.value == id && t'.Keys == t.Keys && forall c :: c in t ==>
            if c == id || (t[c].parent == Some(id) && t[c].status == ACTIVE && t[c].companyId == companyId)
            then t'[c] == t[c].(status := REVOKED) else t'[c] == t[c])
  {
  }

  /** An expiry run: the active capabilities of the company whose time has passed are EXPIRED and no row else changes. */
  lemma ExpiresExactly(t: Table, companyId: string, now: Time)
    ensures var t' := Expire(t, companyId, now);
      Step(t, OpExpire(companyId, now)) == t' && t'.Keys == t.Keys && forall c :: c in t ==>
        if t[c].companyId == companyId && t[c].status == ACTIVE && t[c].grant.expiresAt.Some? && t[c].grant.expiresAt.value <= now
        then t'[c] == t[c].(status := EXPIRED) else t'[c] == t[c]
  {
  }
}
