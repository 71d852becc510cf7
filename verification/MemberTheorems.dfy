/** Every organization keeps an active owner, and no role crosses tenants. */
module MemberTheorems {
  import opened Common
  import opened Members

  ghost predicate Owned(s: State) {
    forall t :: t in s.organizations ==> ActiveOwners(s, t) != {}
  }

  /** The roles that a member of the tenant may hold: the tenant's own, and the two global system
      roles "owner" and "admin". */
  predicate Grantable(s: State, tenant: Tenant, role: RoleId) {
    && role in s.roles
    && match s.roles[role]
       case Role(Some(own), _, _) => own == tenant
       case Role(None, system, key) => system && key in {"owner", "admin"}
  }

  predicate OwnRole(s: State, g: Grant) {
    g.membership in s.memberships && Grantable(s, s.memberships[g.membership].tenant, g.role)
  }

  ghost predicate NoForeignRoles(s: State) {
    forall g :: g in s.grants ==> OwnRole(s, g)
  }

  /** A user has at most one membership in a tenant, and only in organizations that exist. */
  ghost predicate OneMembership(s: State) {
    && (forall m :: m in s.memberships ==> s.memberships[m].tenant in s.organizations)
    && (forall m, n, t, u :: IsMembershipOf(s, m, t, u) && IsMembershipOf(s, n, t, u) ==> m == n)
  }

  ghost predicate Inv(s: State) {
    Owned(s) && NoForeignRoles(s) && OneMembership(s)
  }

  // ---- member updates ----

  lemma AppliedRoles(s: State, m: MembershipId, u: MemberUpdate, n: MembershipId)
    requires m in s.memberships
    ensures RolesOf(Applied(s, m, u).grants, n)
         == if n == m && u.roleIds.Some? then u.roleIds.value else RolesOf(s.grants, n)
  {
    var t := Applied(s, m, u);
    if u.roleIds.Some? {
      assert forall r :: Grant(n, r) in t.grants <==> if n == m then r in u.roleIds.value else Grant(n, r) in s.grants;
      assert forall r :: r in RolesOf(t.grants, n) <==> Grant(n, r) in t.grants;
      assert forall r :: r in RolesOf(s.grants, n) <==> Grant(n, r) in s.grants;
    }
  }

  /** An update changes at most one owner. */
  lemma AppliedOwners(s: State, m: MembershipId, u: MemberUpdate, t: Tenant)
    requires m in s.memberships
    ensures ActiveOwners(Applied(s, m, u), t) >= ActiveOwners(s, t) - {m}
    ensures ActiveOwners(Applied(s, m, u), t) <= ActiveOwners(s, t) + {m}
    ensures m in ActiveOwners(s, t) ==> (m !in ActiveOwners(Applied(s, m, u), t) <==> RemovesActiveOwner(s, m, u))
  {
    var after := Applied(s, m, u);
    forall n | n in s.memberships && n != m ensures IsActiveOwner(after, t, n) <==> IsActiveOwner(s, t, n) {
      AppliedRoles(s, m, u, n);
    }
    AppliedRoles(s, m, u, m);
  }

  lemma OnlyMember<T>(xs: set<T>, x: T)
    requires x in xs
    ensures |xs| <= 1 <==> xs == {x}
  {
    assert xs == {x} + (xs - {x});
    assert |xs| == 1 + |xs - {x}|;
  }

  /** The last-owner guard is exact: it stops an update if and only if that update would leave the
      organization without an active owner. */
  lemma GuardIsExact(s: State, t: Tenant, m: MembershipId, u: MemberUpdate)
    requires m in s.memberships && s.memberships[m].tenant == t && ActiveOwners(s, t) != {}
    ensures RemovesActiveOwner(s, m, u) && |ActiveOwners(s, t)| <= 1 <==> ActiveOwners(Applied(s, m, u), t) == {}
  {
    AppliedOwners(s, m, u, t);
    var before, after := ActiveOwners(s, t), ActiveOwners(Applied(s, m, u), t);
    if m in before {
      OnlyMember(before, m);
    } else {
      assert before - {m} == before;
      assert !RemovesActiveOwner(s, m, u);
    }
  }

  lemma UpdateKeepsOwned(s: State, t: Tenant, permitted: Option<bool>, m: MembershipId, u: MemberUpdate)
    requires Owned(s) && Update(s, t, permitted, m, u).Ok?
    ensures Owned(Update(s, t, permitted, m, u).value)
  {
    var after := Applied(s, m, u);
    forall o | o in after.organizations ensures ActiveOwners(after, o) != {} {
      if o == t {
        GuardIsExact(s, t, m, u);
      } else {
        AppliedOwners(s, m, u, o);
        assert m !in ActiveOwners(s, o);
        assert ActiveOwners(s, o) - {m} == ActiveOwners(s, o);
      }
    }
  }

  lemma UpdateKeepsRoles(s: State, t: Tenant, permitted: Option<bool>, m: MembershipId, u: MemberUpdate)
    requires NoForeignRoles(s) && Update(s, t, permitted, m, u).Ok?
    ensures NoForeignRoles(Update(s, t, permitted, m, u).value)
  {
    var after := Applied(s, m, u);
    forall g | g in after.grants ensures OwnRole(after, g) {
      if g in s.grants {
        assert OwnRole(s, g);
      } else {
        assert g.role in AssignableAmong(s.roles, t, u.roleIds.value);
      }
    }
  }

  // ---- new memberships and grants ----

  /** More memberships and grants never remove an owner. */
  lemma OwnersGrow(s: State, after: State, t: Tenant)
    requires after.roles == s.roles && s.grants <= after.grants
    requires forall m :: m in s.memberships ==>
      && m in after.memberships
      && after.memberships[m].tenant == s.memberships[m].tenant
      && (s.memberships[m].status == Active ==> after.memberships[m].status == Active)
    ensures ActiveOwners(s, t) <= ActiveOwners(after, t)
  {
    forall m | m in ActiveOwners(s, t) ensures m in ActiveOwners(after, t) {
      var r :| r in RolesOf(s.grants, m) && r in s.roles && IsOwnerRole(s.roles[r]);
      assert Grant(m, r) in after.grants;
      assert r in RolesOf(after.grants, m);
    }
  }

  lemma CreateKeepsInv(s: State, user: UserId, owner: RoleId, tenant: Tenant, m: MembershipId)
    requires Inv(s) && tenant !in s.organizations && m !in s.memberships
    requires owner in s.roles && IsOwnerRole(s.roles[owner])
    ensures Inv(Create(s, user, Some(owner), false, tenant, m).value)
  {
    var after := Create(s, user, Some(owner), false, tenant, m).value;
    forall o | o in after.organizations ensures ActiveOwners(after, o) != {} {
      if o == tenant {
        assert owner in RolesOf(after.grants, m) by { assert Grant(m, owner) in after.grants; }
        assert m in ActiveOwners(after, o);
      } else {
        OwnersGrow(s, after, o);
      }
    }
    forall g | g in after.grants ensures OwnRole(after, g) {
      if g in s.grants { assert OwnRole(s, g); }
    }
    AcceptedIsTheOnly(s, after, m, Membership(tenant, user, Active));
  }

  lemma AcceptKeepsInv(
      s: State, tenant: Tenant, user: UserId, ids: seq<RoleId>, found: Option<MembershipId>, m: MembershipId)
    requires Inv(s) && tenant in s.organizations && m !in s.memberships
    requires found.Some? ==> IsMembershipOf(s, found.value, tenant, user)
    requires found.None? ==> forall n :: !IsMembershipOf(s, n, tenant, user)
    requires Accept(s, tenant, user, ids, found, m).Ok?
    ensures Inv(Accept(s, tenant, user, ids, found, m).value)
  {
    var target := if found.Some? then found.value else m;
    var wanted := set r | r in ids;
    var after := Accepted(s, tenant, user, target, wanted);
    forall o | o in after.organizations ensures ActiveOwners(after, o) != {} { OwnersGrow(s, after, o); }
    forall g | g in after.grants ensures OwnRole(after, g) {
      if g in s.grants {
        assert OwnRole(s, g);
      } else {
        assert g.role in AssignableAmong(s.roles, tenant, wanted);
      }
    }
    AcceptedIsTheOnly(s, after, target, Membership(tenant, user, Active));
  }

  /** The membership that is activated or added is the user's only one. */
  lemma AcceptedIsTheOnly(s: State, after: State, m: MembershipId, added: Membership)
    requires OneMembership(s) && after.memberships == s.memberships[m := added]
    requires m in s.memberships ==> IsMembershipOf(s, m, added.tenant, added.user)
    requires m !in s.memberships ==> forall n :: !IsMembershipOf(s, n, added.tenant, added.user)
    ensures forall a, b, t, u :: IsMembershipOf(after, a, t, u) && IsMembershipOf(after, b, t, u) ==> a == b
  {
    forall a, b, t, u | IsMembershipOf(after, a, t, u) && IsMembershipOf(after, b, t, u) ensures a == b {
      assert a in s.memberships ==> IsMembershipOf(s, a, t, u);
      assert b in s.memberships ==> IsMembershipOf(s, b, t, u);
    }
  }

  // ---- every run ----

  datatype Action =
    | CreateOrganization(user: UserId, owner: RoleId, slugTaken: bool, tenant: Tenant, m: MembershipId)
    | UpdateMember(tenant: Tenant, permitted: Option<bool>, m: MembershipId, u: MemberUpdate)
    | AcceptInvitation(tenant: Tenant, user: UserId, ids: seq<RoleId>, found: Option<MembershipId>, m: MembershipId)

  /** The inputs are what the transaction would read: the owner role, the user's membership, ids that
      are not in use. */
  ghost predicate Enabled(s: State, a: Action) {
    match a
    case CreateOrganization(_, owner, _, tenant, m) =>
      tenant !in s.organizations && m !in s.memberships && owner in s.roles && IsOwnerRole(s.roles[owner])
    case UpdateMember(_, _, _, _) => true
    case AcceptInvitation(tenant, user, _, found, m) =>
      && tenant in s.organizations && m !in s.memberships
      && (found.Some? ==> IsMembershipOf(s, found.value, tenant, user))
      && (found.None? ==> forall n :: !IsMembershipOf(s, n, tenant, user))
  }

  /** A transaction that fails is rolled back. */
  ghost function Step(s: State, a: Action): State {
    if !Enabled(s, a) then s
    else
      var r := match a
        case CreateOrganization(user, owner, slugTaken, tenant, m) => Create(s, user, Some(owner), slugTaken, tenant, m)
        case UpdateMember(tenant, permitted, m, u) => Update(s, tenant, permitted, m, u)
        case AcceptInvitation(tenant, user, ids, found, m) => Accept(s, tenant, user, ids, found, m);
      if r.Ok? then r.value else s
  }

  ghost function Run(s: State, actions: seq<Action>): State {
    if actions == [] then s else Step(Run(s, actions[..|actions| - 1]), actions[|actions| - 1])
  }

  lemma StepKeepsInv(s: State, a: Action)
    requires Inv(s)
    ensures Inv(Step(s, a))
  {
    if Step(s, a) != s {
      match a
      case CreateOrganization(user, owner, slugTaken, tenant, m) => CreateKeepsInv(s, user, owner, tenant, m);
      case UpdateMember(tenant, permitted, m, u) =>
        UpdateKeepsOwned(s, tenant, permitted, m, u);
        UpdateKeepsRoles(s, tenant, permitted, m, u);
        UpdateKeepsMemberships(s, m, u);
      case AcceptInvitation(tenant, user, ids, found, m) => AcceptKeepsInv(s, tenant, user, ids, found, m);
    }
  }

  lemma UpdateKeepsMemberships(s: State, m: MembershipId, u: MemberUpdate)
    requires OneMembership(s) && m in s.memberships
    ensures OneMembership(Applied(s, m, u))
  {
    var after := Applied(s, m, u);
    assert forall n, t, v :: IsMembershipOf(after, n, t, v) <==> IsMembershipOf(s, n, t, v);
  }

  /** From the empty directory on, with any catalogue of roles: every organization has an active
      owner, and a membership holds only roles of its own tenant and the global owner and admin roles. */
  lemma {:induction false} EveryOrganizationIsOwned(roles: map<RoleId, Role>, actions: seq<Action>)
    ensures Inv(Run(State(roles, {}, map[], {}), actions))
    decreases |actions|
  {
    if actions != [] {
      var n := |actions| - 1;
      EveryOrganizationIsOwned(roles, actions[..n]);
      StepKeepsInv(Run(State(roles, {}, map[], {}), actions[..n]), actions[n]);
    }
  }
}
