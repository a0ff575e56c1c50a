/** The database rows the services read and write. Every table is a sequence
    of rows in the database's row order; `FindFirst` is `findFirst`/`findUnique`
    with a `where` filter, and returns the position of the row it finds. */
module Schema {
  import opened Common
  import opened Constants

  datatype User = User(
    id: string,
    email: string,
    passwordHash: Option<string>,
    fullName: string,
    emailVerified: bool)

  /** A stored one-time code; `code` holds the hash, never the code itself.
      Times are milliseconds since the epoch. */
  datatype OtpRow = OtpRow(
    id: string,
    email: string,
    code: string,
    expiresAt: int,
    used: bool,
    createdAt: int)

  datatype Tenant = Tenant(
    id: string,
    name: string,
    siret: string,
    kbis: string,
    ownerId: string,
    status: TenantStatus,
    creationDate: int,
    logoUrl: Option<string>,
    coverImageUrl: Option<string>,
    activityDomainId: Option<string>,
    specialityId: Option<string>)

  datatype Subscription = Subscription(
    id: string,
    tenantId: string,
    planTier: PlanTier,
    billingPeriod: Option<BillingPeriod>,
    stripeCustomerId: string,
    maxUsers: nat,
    status: SubscriptionStatus,
    currentPeriodStart: int,
    currentPeriodEnd: int)

  datatype Role = Role(id: string, name: string, isSystem: bool)

  datatype Membership = Membership(
    id: string,
    userId: string,
    tenantId: string,
    roleId: string,
    isOwner: bool)

  datatype ActivityDomain = ActivityDomain(id: string, name: string)

  datatype Speciality = Speciality(id: string, name: string, activityDomainId: string)

  datatype DocumentCategory = DocumentCategory(id: string, name: string)

  datatype Document = Document(
    id: string,
    tenantId: string,
    name: string,
    categoryId: string,
    fileUrl: string,
    fileSize: nat,
    mimeType: string,
    uploadedBy: string)

  datatype AdminUser = AdminUser(
    id: string,
    email: string,
    passwordHash: Option<string>,
    role: string,
    lastLoginAt: Option<int>)

  /** The first row, in row order, that satisfies `p`. */
  function FindFirst<T>(rows: seq<T>, p: T -> bool): (r: Option<nat>)
    ensures r.Some? ==> r.value < |rows| && p(rows[r.value])
    ensures r.Some? ==> forall j :: 0 <= j < r.value ==> !p(rows[j])
    ensures r.None? <==> forall j :: 0 <= j < |rows| ==> !p(rows[j])
  {
    if rows == [] then None
    else if p(rows[0]) then Some(0)
    else
      match FindFirst(rows[1..], p)
      case None => None
      case Some(k) => Some(k + 1)
  }

  function UserWithEmail(users: seq<User>, email: string): Option<nat> {
    FindFirst(users, (u: User) => u.email == email)
  }

  function UserWithId(users: seq<User>, id: string): Option<nat> {
    FindFirst(users, (u: User) => u.id == id)
  }

  function TenantWithId(tenants: seq<Tenant>, id: string): Option<nat> {
    FindFirst(tenants, (t: Tenant) => t.id == id)
  }

  function RoleWithId(roles: seq<Role>, id: string): Option<nat> {
    FindFirst(roles, (r: Role) => r.id == id)
  }

  /** `role.findFirst({ where: { name: 'Admin', isSystem: true } })`. */
  function SystemAdminRole(roles: seq<Role>): Option<nat> {
    FindFirst(roles, (r: Role) => r.name == ADMIN_ROLE && r.isSystem)
  }

  predicate UniqueUserEmails(users: seq<User>) {
    forall i, j :: 0 <= i < j < |users| ==> users[i].email != users[j].email
  }

  predicate UniqueUserIds(users: seq<User>) {
    forall i, j :: 0 <= i < j < |users| ==> users[i].id != users[j].id
  }

  predicate UniqueTenantIds(tenants: seq<Tenant>) {
    forall i, j :: 0 <= i < j < |tenants| ==> tenants[i].id != tenants[j].id
  }

  predicate UniqueSubscriptionIds(subscriptions: seq<Subscription>) {
    forall i, j :: 0 <= i < j < |subscriptions| ==> subscriptions[i].id != subscriptions[j].id
  }

  predicate UniqueMembershipIds(memberships: seq<Membership>) {
    forall i, j :: 0 <= i < j < |memberships| ==> memberships[i].id != memberships[j].id
  }

  /** The foreign keys of a membership resolve: its tenant and its role exist. */
  predicate MembershipLinksResolve(memberships: seq<Membership>, tenants: seq<Tenant>, roles: seq<Role>) {
    forall i :: 0 <= i < |memberships| ==>
      TenantWithId(tenants, memberships[i].tenantId).Some? &&
      RoleWithId(roles, memberships[i].roleId).Some?
  }
}
