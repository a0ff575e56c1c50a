/** The tenant application's token check: a verified token's claims are
    resolved against the database to the user and to the user's membership of
    the tenant named in the token. Signature and expiry checks belong to the
    JWT library and are not part of this model. */
module JwtStrategy {
  import opened Common
  import opened Schema

  datatype JwtPayload = JwtPayload(sub: string, email: string, tenantId: string, role: string)

  /** A membership together with the tenant and role rows it points at
      (`include: { tenant: true, role: true }`). */
  datatype MembershipView = MembershipView(membership: Membership, tenant: Tenant, role: Role)

  /** What `validate` hands to the request as the current user. */
  datatype RequestUser = RequestUser(
    userId: string,
    email: string,
    tenantId: string,
    role: string,
    membership: MembershipView)

  /** The user's first membership, in row order, of tenant `tenantId`. */
  function MembershipOf(memberships: seq<Membership>, userId: string, tenantId: string): (r: Option<nat>)
    ensures r.Some? ==> r.value < |memberships| &&
                        memberships[r.value].userId == userId && memberships[r.value].tenantId == tenantId
    ensures r.Some? ==> forall j :: 0 <= j < r.value ==>
                          memberships[j].userId != userId || memberships[j].tenantId != tenantId
    ensures r.None? <==> forall j :: 0 <= j < |memberships| ==>
                          memberships[j].userId != userId || memberships[j].tenantId != tenantId
  {
    FindFirst(memberships, (m: Membership) => m.userId == userId && m.tenantId == tenantId)
  }

  /** `validate(payload)`: read-only; it succeeds exactly when the user
      exists and has a membership of the token's tenant, whatever that
      tenant's status and whatever role the token claims. */
  function Validate(users: seq<User>, memberships: seq<Membership>, tenants: seq<Tenant>, roles: seq<Role>,
                    payload: JwtPayload): (r: Result<RequestUser>)
    requires MembershipLinksResolve(memberships, tenants, roles)
    ensures r.Ok? <==>
              UserWithId(users, payload.sub).Some? &&
              exists j :: 0 <= j < |memberships| &&
                memberships[j].userId == payload.sub && memberships[j].tenantId == payload.tenantId
    ensures UserWithId(users, payload.sub).None? ==> r == Err(HttpError(UNAUTHORIZED, "Unauthorized"))
    ensures UserWithId(users, payload.sub).Some? && r.Err? ==>
              r == Err(HttpError(UNAUTHORIZED, "No tenant membership found"))
    ensures r.Ok? ==>
              var m := r.value.membership;
              && r.value.userId == payload.sub
              && r.value.email == users[UserWithId(users, payload.sub).value].email
              && r.value.tenantId == payload.tenantId
              && m.membership.tenantId == payload.tenantId && m.membership.userId == payload.sub
              && m.membership in memberships
              && m.tenant in tenants && m.tenant.id == payload.tenantId
              && m.role in roles && m.role.id == m.membership.roleId
              && r.value.role == m.role.name
  {
    var u := UserWithId(users, payload.sub);
    if u.None? then Err(HttpError(UNAUTHORIZED, "Unauthorized"))
    else
      var user := users[u.value];
      var k := MembershipOf(memberships, user.id, payload.tenantId);
      if k.None? then Err(HttpError(UNAUTHORIZED, "No tenant membership found"))
      else
        var m := memberships[k.value];
        var tenant := tenants[TenantWithId(tenants, m.tenantId).value];
        var role := roles[RoleWithId(roles, m.roleId).value];
        Ok(RequestUser(user.id, user.email, payload.tenantId, role.name, MembershipView(m, tenant, role)))
  }

  /** The role placed on the request is the stored one: the token's own
      `role` claim is never consulted. */
  lemma RoleClaimIgnored(users: seq<User>, memberships: seq<Membership>, tenants: seq<Tenant>, roles: seq<Role>,
                         payload: JwtPayload, claimed: string)
    requires MembershipLinksResolve(memberships, tenants, roles)
    ensures Validate(users, memberships, tenants, roles, payload)
            == Validate(users, memberships, tenants, roles, payload.(role := claimed))
  {
  }
}
