/** When the membership transactions succeed, and what they change, in terms of the tables alone. */
module MemberProgress {
  import opened Common
  import opened Members
  import opened MemberTheorems

  /** An active membership of the tenant with a grant of the global system role "owner". */
  ghost predicate HoldsOwnership(s: State, t: Tenant, m: MembershipId) {
    && m in s.memberships && s.memberships[m].tenant == t && s.memberships[m].status.Active?
    && exists g <- s.grants :: g.membership == m && g.role in s.roles && s.roles[g.role] == Role(None, true, "owner")
  }

  lemma OwnersHoldOwnership(s: State, t: Tenant, m: MembershipId)
    ensures m in ActiveOwners(s, t) <==> HoldsOwnership(s, t, m)
  {
    if m in ActiveOwners(s, t) {
      var r :| r in RolesOf(s.grants, m) && r in s.roles && IsOwnerRole(s.roles[r]);
      assert Grant(m, r) in s.grants;
    }
    if HoldsOwnership(s, t, m) {
      var g :| g in s.grants && g.membership == m && g.role in s.roles && s.roles[g.role] == Role(None, true, "owner");
      assert g.role in RolesOf(s.grants, m);
    }
  }

  /** The grants of the whole directory after member `m` was given the roles of `update`. */
  ghost predicate GrantsReplaced(before: set<Grant>, after: set<Grant>, m: MembershipId, roles: Option<set<RoleId>>) {
    forall n, r :: Grant(n, r) in after <==>
                     if n == m && roles.Some? then r in roles.value else Grant(n, r) in before
  }

  ghost predicate OthersKept(s: State, after: State, m: MembershipId) {
    forall n :: n != m ==> (n in after.memberships <==> n in s.memberships)
                           && (n in s.memberships ==> after.memberships[n] == s.memberships[n])
  }

  /** The requested roles and status, with everything else as it was. */
  ghost predicate Updated(s: State, after: State, m: MembershipId, u: MemberUpdate)
    requires m in s.memberships
  {
    && after.roles == s.roles && after.organizations == s.organizations
    && GrantsReplaced(s.grants, after.grants, m, u.roleIds)
    && m in after.memberships && OthersKept(s, after, m)
    && after.memberships[m] == Membership(s.memberships[m].tenant, s.memberships[m].user,
                                          if u.status.Some? then u.status.value else s.memberships[m].status)
  }

  lemma AppliedIsUpdated(s: State, m: MembershipId, u: MemberUpdate)
    requires m in s.memberships
    ensures Updated(s, Applied(s, m, u), m, u)
  {
  }

  lemma GrantableIsAssignable(s: State, t: Tenant, ids: set<RoleId>)
    ensures (forall r :: r in ids ==> Grantable(s, t, r)) <==> AssignableAmong(s.roles, t, ids) == ids
  {
    forall r ensures Grantable(s, t, r) <==> r in s.roles && Assignable(s.roles[r], t) {}
    if forall r :: r in ids ==> Grantable(s, t, r) {
      assert AssignableAmong(s.roles, t, ids) == ids;
    }
    if AssignableAmong(s.roles, t, ids) == ids {
      forall r | r in ids ensures Grantable(s, t, r) { assert r in AssignableAmong(s.roles, t, ids); }
    }
  }

  ghost predicate RolesGrantable(s: State, t: Tenant, ids: Option<set<RoleId>>) {
    ids.Some? ==> forall r :: r in ids.value ==> Grantable(s, t, r)
  }

  /** A permitted update of an owned organization's member succeeds if and only if the roles asked for
      may be granted and somebody still holds the ownership afterwards. */
  lemma UpdateSucceedsIff(s: State, t: Tenant, m: MembershipId, u: MemberUpdate, after: State)
    requires t in s.organizations && m in s.memberships && s.memberships[m].tenant == t
    requires Owned(s) && after == Applied(s, m, u)
    ensures var r := Update(s, t, Some(true), m, u);
      && (r.Ok? <==> RolesGrantable(s, t, u.roleIds) && exists n :: HoldsOwnership(after, t, n))
      && (r.Ok? ==> r.value == after && Updated(s, after, m, u))
      && (r.Err? ==> r.error == if RolesGrantable(s, t, u.roleIds) then LastActiveOwner else RoleInvalid)
  {
    if u.roleIds.Some? { GrantableIsAssignable(s, t, u.roleIds.value); }
    GuardIsExact(s, t, m, u);
    AppliedIsUpdated(s, m, u);
    if ActiveOwners(after, t) != {} {
      var n :| n in ActiveOwners(after, t);
      OwnersHoldOwnership(after, t, n);
    }
    forall n | HoldsOwnership(after, t, n) ensures ActiveOwners(after, t) != {} { OwnersHoldOwnership(after, t, n); }
  }

  /** An outsider, or a member of another organization, is not found; a member without the permission
      is refused before anything else is looked at. */
  lemma UpdateRefusals(s: State, t: Tenant, permitted: Option<bool>, m: MembershipId, u: MemberUpdate)
    ensures permitted.None? || t !in s.organizations ==> Update(s, t, permitted, m, u) == Err(NotFound)
    ensures permitted == Some(false) && t in s.organizations ==> Update(s, t, permitted, m, u) == Err(Forbidden)
    ensures permitted == Some(true) && (m !in s.memberships || s.memberships[m].tenant != t) ==>
              Update(s, t, permitted, m, u) == Err(NotFound)
  {
  }

  /** The user is an active member with the invited roles on top of those held before. */
  ghost predicate Joined(s: State, after: State, t: Tenant, user: UserId, m: MembershipId, ids: seq<RoleId>) {
    && after.roles == s.roles && after.organizations == s.organizations
    && m in after.memberships && after.memberships[m] == Membership(t, user, Active) && OthersKept(s, after, m)
    && forall n, r :: Grant(n, r) in after.grants <==> Grant(n, r) in s.grants || (n == m && r in ids)
  }

  /** An invitation is accepted if and only if it names roles, all of them may be granted, and the
      user's membership, if there is one, is not withheld. */
  lemma AcceptSucceedsIff(
      s: State, t: Tenant, user: UserId, ids: seq<RoleId>, found: Option<MembershipId>, unused: MembershipId)
    requires found.Some? ==> IsMembershipOf(s, found.value, t, user)
    requires unused !in s.memberships
    ensures var r := Accept(s, t, user, ids, found, unused);
      var m := if found.Some? then found.value else unused;
      && (r.Ok? <==> && ids != [] && (forall x :: x in ids ==> Grantable(s, t, x))
                     && (found.Some? ==> s.memberships[m].status != Withheld))
      && (r.Ok? ==> Joined(s, r.value, t, user, m, ids))
  {
    var wanted := set x | x in ids;
    GrantableIsAssignable(s, t, wanted);
    assert (forall x :: x in ids ==> Grantable(s, t, x)) <==> forall x :: x in wanted ==> Grantable(s, t, x);
  }

  /** A new organization is owned by its creator alone, and no other organization changes. */
  lemma CreatorOwns(s: State, user: UserId, owner: RoleId, tenant: Tenant, m: MembershipId)
    requires NoForeignRoles(s) && OneMembership(s)
    requires tenant !in s.organizations && m !in s.memberships
    requires owner in s.roles && s.roles[owner] == Role(None, true, "owner")
    ensures var r := Create(s, user, Some(owner), false, tenant, m);
      && r.Ok? && r.value.organizations == s.organizations + {tenant} && r.value.roles == s.roles
      && r.value.memberships == s.memberships[m := Membership(tenant, user, Active)]
      && (forall n :: HoldsOwnership(r.value, tenant, n) <==> n == m)
      && (forall n, t :: t != tenant ==> (HoldsOwnership(r.value, t, n) <==> HoldsOwnership(s, t, n)))
  {
    var after := Create(s, user, Some(owner), false, tenant, m).value;
    assert Grant(m, owner) in after.grants;
    assert HoldsOwnership(after, tenant, m);
    forall n, t | n != m ensures HoldsOwnership(after, t, n) <==> HoldsOwnership(s, t, n) {
      assert forall g :: g in after.grants && g.membership == n <==> g in s.grants && g.membership == n;
    }
    forall n ensures !HoldsOwnership(s, tenant, n) {}
  }

  /** Without the global owner role, or else with a slug in use, nothing is created. */
  lemma CreationRefusals(s: State, user: UserId, owner: RoleId, slugTaken: bool, tenant: Tenant, m: MembershipId)
    requires tenant !in s.organizations && m !in s.memberships
    ensures Create(s, user, None, slugTaken, tenant, m) == Err(OwnerRoleUnavailable)
    ensures Create(s, user, Some(owner), true, tenant, m) == Err(SlugConflict)
  {
  }
}
