/** Organizations, memberships and role grants: creation, member updates and accepted invitations. */
module Members {
  import opened Common

  type Tenant = nat
  type UserId = nat
  type RoleId = nat
  type MembershipId = nat

  datatype Status = Active | Suspended | Withheld

  /** A role belongs to a tenant, or to none. */
  datatype Role = Role(tenant: Option<Tenant>, isSystem: bool, key: string)

  datatype Membership = Membership(tenant: Tenant, user: UserId, status: Status)

  datatype Grant = Grant(membership: MembershipId, role: RoleId)

  datatype State = State(
    roles: map<RoleId, Role>,
    organizations: set<Tenant>,
    memberships: map<MembershipId, Membership>,
    grants: set<Grant>)

  datatype Error = NotFound | Forbidden | RoleInvalid | LastActiveOwner | OwnerRoleUnavailable | SlugConflict | Rejected

  // ---- queries ----

  predicate IsOwnerRole(r: Role) {
    r.tenant.None? && r.isSystem && r.key == "owner"
  }

  /** Tenant roles, and the global owner and admin roles. */
  predicate Assignable(r: Role, tenant: Tenant) {
    r.tenant == Some(tenant) || (r.tenant.None? && r.isSystem && (r.key == "owner" || r.key == "admin"))
  }

  function AssignableAmong(roles: map<RoleId, Role>, tenant: Tenant, ids: set<RoleId>): set<RoleId> {
    set r | r in ids && r in roles && Assignable(roles[r], tenant)
  }

  predicate ContainsOwner(roles: map<RoleId, Role>, ids: set<RoleId>) {
    exists r :: r in ids && r in roles && IsOwnerRole(roles[r])
  }

  function RolesOf(grants: set<Grant>, m: MembershipId): set<RoleId> {
    set g | g in grants && g.membership == m :: g.role
  }

  predicate IsActiveOwner(s: State, tenant: Tenant, m: MembershipId) {
    && m in s.memberships && s.memberships[m].tenant == tenant && s.memberships[m].status == Active
    && ContainsOwner(s.roles, RolesOf(s.grants, m))
  }

  /** The memberships that `count_active_owners` counts. */
  function ActiveOwners(s: State, tenant: Tenant): set<MembershipId> {
    set m | m in s.memberships && IsActiveOwner(s, tenant, m)
  }

  function WithRoles(grants: set<Grant>, m: MembershipId, ids: set<RoleId>): set<Grant> {
    grants + set r | r in ids :: Grant(m, r)
  }

  function WithoutRoles(grants: set<Grant>, m: MembershipId): set<Grant> {
    set g | g in grants && g.membership != m
  }

  // ---- operations ----

  datatype MemberUpdate = MemberUpdate(roleIds: Option<set<RoleId>>, status: Option<Status>)

  predicate RemovesActiveOwner(s: State, m: MembershipId, u: MemberUpdate)
    requires m in s.memberships
  {
    var current := RolesOf(s.grants, m);
    var nextRoles := if u.roleIds.Some? then u.roleIds.value else current;
    var nextStatus := if u.status.Some? then u.status.value else s.memberships[m].status;
    && s.memberships[m].status == Active && ContainsOwner(s.roles, current)
    && (nextStatus != Active || !ContainsOwner(s.roles, nextRoles))
  }

  function Applied(s: State, m: MembershipId, u: MemberUpdate): State
    requires m in s.memberships
  {
    s.(grants := if u.roleIds.Some? then WithRoles(WithoutRoles(s.grants, m), m, u.roleIds.value) else s.grants,
       memberships := if u.status.Some? then s.memberships[m := s.memberships[m].(status := u.status.value)]
                      else s.memberships)
  }

  /** `update_member`; `permitted` is what the caller's own membership allows. */
  function Update(s: State, tenant: Tenant, permitted: Option<bool>, m: MembershipId, u: MemberUpdate)
    : Result<State, Error>
  {
    if tenant !in s.organizations || permitted.None? then Err(NotFound)
    else if !permitted.value then Err(Forbidden)
    else if m !in s.memberships || s.memberships[m].tenant != tenant then Err(NotFound)
    else if u.roleIds.Some? && AssignableAmong(s.roles, tenant, u.roleIds.value) != u.roleIds.value then
      Err(RoleInvalid)
    else if RemovesActiveOwner(s, m, u) && |ActiveOwners(s, tenant)| <= 1 then Err(LastActiveOwner)
    else Ok(Applied(s, m, u))
  }

  predicate IsMembershipOf(s: State, m: MembershipId, tenant: Tenant, user: UserId) {
    m in s.memberships && s.memberships[m].tenant == tenant && s.memberships[m].user == user
  }

  /** `create_organization`, with the ids it draws; `owner` is the global owner role, if there is one. */
  function Create(s: State, user: UserId, owner: Option<RoleId>, slugTaken: bool, tenant: Tenant, m: MembershipId)
    : Result<State, Error>
    requires tenant !in s.organizations && m !in s.memberships
  {
    if owner.None? then Err(OwnerRoleUnavailable)
    else if slugTaken then Err(SlugConflict)
    else Ok(s.(organizations := s.organizations + {tenant},
               memberships := s.memberships[m := Membership(tenant, user, Active)],
               grants := s.grants + {Grant(m, owner.value)}))
  }

  /** What an accepted invitation does to an existing or a new membership. */
  function Accepted(s: State, tenant: Tenant, user: UserId, m: MembershipId, ids: set<RoleId>): State {
    s.(memberships := s.memberships[m := Membership(tenant, user, Active)], grants := WithRoles(s.grants, m, ids))
  }

  /** `accept_invitation` and `activate_membership_from_invitation`; `found` is the user's membership
      in the tenant, and `m` the id of a new one. */
  function Accept(
      s: State, tenant: Tenant, user: UserId, ids: seq<RoleId>, found: Option<MembershipId>, m: MembershipId)
    : Result<State, Error>
    requires found.Some? ==> IsMembershipOf(s, found.value, tenant, user)
    requires m !in s.memberships
  {
    var wanted := set r | r in ids;
    if ids == [] || AssignableAmong(s.roles, tenant, wanted) != wanted then Err(Rejected)
    else if found.None? then Ok(Accepted(s, tenant, user, m, wanted))
    else if s.memberships[found.value].status == Withheld then Err(NotFound)
    else Ok(Accepted(s, tenant, user, found.value, wanted))
  }

  // ---- the tables, updated in place ----

  class Directory {
    var roles: map<RoleId, Role>
    var organizations: set<Tenant>
    var memberships: map<MembershipId, Membership>
    var grants: set<Grant>

    function Now(): State
      reads this
    {
      State(roles, organizations, memberships, grants)
    }

    constructor (roles: map<RoleId, Role>)
      ensures Now() == State(roles, {}, map[], {})
    {
      this.roles, organizations, memberships, grants := roles, {}, map[], {};
    }

    /** `create_organization`: the organization, the creator's membership and its owner grant. */
    method CreateOrganization(user: UserId, owner: Option<RoleId>, slugTaken: bool, tenant: Tenant, m: MembershipId)
      returns (error: Option<Error>)
      requires tenant !in organizations && m !in memberships
      modifies this
      ensures var result := Create(old(Now()), user, owner, slugTaken, tenant, m);
        if result.Ok? then error.None? && Now() == result.value else error == Some(result.error) && Now() == old(Now())
    {
      if owner.None? {
        return Some(OwnerRoleUnavailable);
      }
      if slugTaken {
        return Some(SlugConflict);
      }
      organizations := organizations + {tenant};
      memberships := memberships[m := Membership(tenant, user, Active)];
      grants := grants + {Grant(m, owner.value)};
      error := None;
    }

    /** `replace_membership_roles`: all old grants go, the new ones come one by one. */
    method ReplaceRoles(m: MembershipId, ids: seq<RoleId>)
      modifies this`grants
      ensures grants == WithRoles(WithoutRoles(old(grants), m), m, set r | r in ids)
    {
      grants := WithoutRoles(grants, m);
      for i := 0 to |ids|
        invariant grants == WithRoles(WithoutRoles(old(grants), m), m, set r | r in ids[..i])
      {
        assert ids[..i + 1] == ids[..i] + [ids[i]];
        grants := grants + {Grant(m, ids[i])};
      }
      assert ids[..|ids|] == ids;
    }

    method UpdateMember(
        tenant: Tenant, permitted: Option<bool>, m: MembershipId, roleIds: Option<seq<RoleId>>, status: Option<Status>)
      returns (error: Option<Error>)
      modifies this
      ensures var wanted := if roleIds.Some? then Some(set r | r in roleIds.value) else None;
        var result := Update(old(Now()), tenant, permitted, m, MemberUpdate(wanted, status));
        if result.Ok? then error.None? && Now() == result.value else error == Some(result.error) && Now() == old(Now())
    {
      if tenant !in organizations || permitted.None? {
        return Some(NotFound);
      }
      if !permitted.value {
        return Some(Forbidden);
      }
      if m !in memberships || memberships[m].tenant != tenant {
        return Some(NotFound);
      }
      var wanted := if roleIds.Some? then Some(set r | r in roleIds.value) else None;
      if wanted.Some? && AssignableAmong(roles, tenant, wanted.value) != wanted.value {
        return Some(RoleInvalid);
      }
      if RemovesActiveOwner(Now(), m, MemberUpdate(wanted, status)) {
        var owners := |ActiveOwners(Now(), tenant)|;
        if owners <= 1 {
          return Some(LastActiveOwner);
        }
      }
      if roleIds.Some? {
        ReplaceRoles(m, roleIds.value);
      }
      if status.Some? && status.value != memberships[m].status {
        memberships := memberships[m := memberships[m].(status := status.value)];
      }
      error := None;
    }

    /** The loop that adds only the missing roles. */
    method AddMissingRoles(m: MembershipId, ids: seq<RoleId>)
      modifies this`grants
      ensures grants == WithRoles(old(grants), m, set r | r in ids)
    {
      var existing := RolesOf(grants, m);
      for i := 0 to |ids|
        invariant grants == WithRoles(old(grants), m, set r | r in ids[..i])
      {
        assert ids[..i + 1] == ids[..i] + [ids[i]];
        if ids[i] in existing {
          assert Grant(m, ids[i]) in old(grants);
        } else {
          grants := grants + {Grant(m, ids[i])};
        }
      }
      assert ids[..|ids|] == ids;
    }

    method AcceptInvitation(
        tenant: Tenant, user: UserId, ids: seq<RoleId>, found: Option<MembershipId>, m: MembershipId)
      returns (error: Option<Error>)
      requires found.Some? ==> IsMembershipOf(Now(), found.value, tenant, user)
      requires m !in memberships
      modifies this
      ensures var result := Accept(old(Now()), tenant, user, ids, found, m);
        if result.Ok? then error.None? && Now() == result.value else error == Some(result.error) && Now() == old(Now())
    {
      if ids == [] {
        return Some(Rejected);
      }
      var wanted := set r | r in ids;
      if AssignableAmong(roles, tenant, wanted) != wanted {
        return Some(Rejected);
      }
      var target := if found.Some? then found.value else m;
      if found.None? {
        memberships := memberships[m := Membership(tenant, user, Active)];
      } else if memberships[target].status == Suspended {
        memberships := memberships[target := memberships[target].(status := Active)];
      } else if memberships[target].status != Active {
        return Some(NotFound);
      }
      AddMissingRoles(target, ids);
      error := None;
    }
  }
}
