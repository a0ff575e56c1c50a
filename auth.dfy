/** The tenant application's authentication service: one-time codes sent by
    e-mail, registration of a user together with the company (tenant) the
    user owns, and login. The database is the object's tables; the clock, the
    random source, the hash and the token signer are parameters or stand-ins
    (module Crypto). Mail delivery is left out: its failure is swallowed. */
module Auth {
  import opened Common
  import opened Strings
  import opened Crypto
  import opened Constants
  import opened Schema

  /** A code stays valid for ten minutes, in milliseconds. */
  const OTP_TTL_MS := 10 * 60 * 1000

  datatype RegisterDto = RegisterDto(
    email: string,
    otpCode: string,
    fullName: string,
    companyName: string,
    siret: string,
    kbis: string,
    password: string,
    confirmPassword: string)

  datatype LoginDto = LoginDto(email: string, password: string)

  /** The claims of an access token. */
  datatype Claims = Claims(sub: string, email: string, tenantId: string, role: string)

  datatype UserSummary = UserSummary(id: string, email: string, fullName: string, emailVerified: bool)

  datatype TenantSummary = TenantSummary(id: string, name: string, role: string)

  datatype AuthResponse = AuthResponse(accessToken: Token<Claims>, user: UserSummary, tenant: TenantSummary)

  /** The ids the database generates for the rows a registration creates. */
  datatype NewIds = NewIds(userId: string, tenantId: string, subscriptionId: string, membershipId: string)

  /** `Math.floor(100000 + Math.random() * 900000)`, for a draw `random` of
      `Math.random()` (real arithmetic stands for floating point). */
  function OtpCodeFrom(random: real): (code: int)
    requires 0.0 <= random < 1.0
    ensures 100000 <= code <= 999999
  {
    (100000.0 + random * 900000.0).Floor
  }

  /** The code sent to the user always has six digits. */
  lemma OtpCodeHasSixDigits(random: real)
    requires 0.0 <= random < 1.0
    ensures |NatToString(OtpCodeFrom(random))| == 6
  {
    assert Pow10(5) == 100000 && Pow10(6) == 1000000;
    NatToStringLength(OtpCodeFrom(random), 6);
  }

  predicate OneOtpPerEmail(rows: seq<OtpRow>) {
    forall i, j :: 0 <= i < j < |rows| ==> rows[i].email != rows[j].email
  }

  predicate UniqueOtpIds(rows: seq<OtpRow>) {
    forall i, j :: 0 <= i < j < |rows| ==> rows[i].id != rows[j].id
  }

  /** The row `verifyOtp` reads, `findFirst` ordered by `createdAt`
      descending: a row for `email` created last (among equals, the first in
      row order). */
  function LatestOtp(rows: seq<OtpRow>, email: string): (r: Option<nat>)
    ensures r.Some? ==> r.value < |rows| && rows[r.value].email == email
    ensures r.Some? ==> forall j :: 0 <= j < |rows| && rows[j].email == email ==>
                          rows[j].createdAt <= rows[r.value].createdAt
    ensures r.None? <==> forall j :: 0 <= j < |rows| ==> rows[j].email != email
  {
    if rows == [] then None
    else
      var last := |rows| - 1;
      var earlier := LatestOtp(rows[..last], email);
      if rows[last].email != email then earlier
      else if earlier.Some? && rows[earlier.value].createdAt >= rows[last].createdAt then earlier
      else Some(last)
  }

  /** The row `sendOtp` finds, `findFirst` without an order: the first row
      for `email` in row order. */
  function FirstOtp(rows: seq<OtpRow>, email: string): (r: Option<nat>)
    ensures r.Some? ==> r.value < |rows| && rows[r.value].email == email
    ensures r.Some? ==> forall j :: 0 <= j < r.value ==> rows[j].email != email
    ensures r.None? <==> forall j :: 0 <= j < |rows| ==> rows[j].email != email
  {
    FindFirst(rows, (o: OtpRow) => o.email == email)
  }

  /** Two tables that agree on every row's e-mail and creation time. */
  predicate SameOtpKeys(rows: seq<OtpRow>, rows': seq<OtpRow>) {
    |rows| == |rows'| &&
    forall j :: 0 <= j < |rows| ==> rows[j].email == rows'[j].email && rows[j].createdAt == rows'[j].createdAt
  }

  /** Which row is the latest depends only on e-mails and creation times, so
      resetting or consuming a code does not change it. */
  lemma {:induction false} LatestOtpDependsOnKeys(rows: seq<OtpRow>, rows': seq<OtpRow>, email: string)
    requires SameOtpKeys(rows, rows')
    ensures LatestOtp(rows, email) == LatestOtp(rows', email)
  {
    if rows != [] {
      var last := |rows| - 1;
      LatestOtpDependsOnKeys(rows[..last], rows'[..last], email);
    }
  }

  /** With one row per e-mail, the latest row is that row. */
  lemma LatestOtpIsTheRow(rows: seq<OtpRow>, email: string, i: nat)
    requires OneOtpPerEmail(rows)
    requires i < |rows| && rows[i].email == email
    ensures LatestOtp(rows, email) == Some(i)
  {
  }

  /** The table after `sendOtp` stored `codeHash` for `email`: the email's row
      is overwritten in place (hash, expiry, `used` reset), or, when there is
      none, one row is appended. */
  function OtpAfterSend(rows: seq<OtpRow>, email: string, codeHash: string, now: int, newId: string): (r: seq<OtpRow>)
    ensures (exists j :: 0 <= j < |rows| && rows[j].email == email) ==> |r| == |rows|
    ensures (forall j :: 0 <= j < |rows| ==> rows[j].email != email) ==> |r| == |rows| + 1
    ensures forall j :: 0 <= j < |rows| && rows[j].email != email ==> r[j] == rows[j]
    ensures forall j :: 0 <= j < |rows| ==> r[j].id == rows[j].id && r[j].createdAt == rows[j].createdAt
    ensures OneOtpPerEmail(rows) ==> OneOtpPerEmail(r)
    ensures OneOtpPerEmail(rows) ==>
              var k := LatestOtp(r, email);
              k.Some? && r[k.value].code == codeHash && r[k.value].expiresAt == now + OTP_TTL_MS && !r[k.value].used
  {
    var found := FirstOtp(rows, email);
    var r := if found.Some? then
               rows[found.value := rows[found.value].(code := codeHash, expiresAt := now + OTP_TTL_MS, used := false)]
             else
               rows + [OtpRow(newId, email, codeHash, now + OTP_TTL_MS, false, now)];
    assert OneOtpPerEmail(rows) ==> OneOtpPerEmail(r);
    var k := if found.Some? then found.value else |rows|;
    assert r[k].email == email;
    if OneOtpPerEmail(rows) then
      LatestOtpIsTheRow(r, email, k);
      r
    else
      r
  }

  /** `rows` once the code in row `i` is consumed. */
  function MarkUsed(rows: seq<OtpRow>, i: nat): (r: seq<OtpRow>)
    requires i < |rows|
    ensures |r| == |rows| && r[i].used && r[i].(used := rows[i].used) == rows[i]
    ensures forall j :: 0 <= j < |rows| && j != i ==> r[j] == rows[j]
    ensures SameOtpKeys(rows, r)
    ensures OneOtpPerEmail(rows) ==> OneOtpPerEmail(r)
    ensures UniqueOtpIds(rows) ==> UniqueOtpIds(r)
  {
    rows[i := rows[i].(used := true)]
  }

  /** The checks of `verifyOtp`, in their order; on success, the row to mark.
      It succeeds exactly when the latest row is unused, not expired and
      matches the code; without a row it fails "OTP not found". */
  function VerifyCheck(rows: seq<OtpRow>, email: string, code: string, now: int): (r: Result<nat>)
    ensures LatestOtp(rows, email).None? ==> r == Err(HttpError(BAD_REQUEST, "OTP not found"))
    ensures r.Ok? ==> LatestOtp(rows, email) == Some(r.value)
    ensures r.Ok? <==>
              && LatestOtp(rows, email).Some?
              && var i := LatestOtp(rows, email).value;
                 !rows[i].used && now <= rows[i].expiresAt && Compare(code, rows[i].code)
  {
    match LatestOtp(rows, email)
    case None => Err(HttpError(BAD_REQUEST, "OTP not found"))
    case Some(i) =>
      if rows[i].used then Err(HttpError(BAD_REQUEST, "OTP has already been used"))
      else if now > rows[i].expiresAt then Err(HttpError(BAD_REQUEST, "OTP has expired"))
      else if !Compare(code, rows[i].code) then Err(HttpError(UNAUTHORIZED, "Invalid OTP"))
      else Ok(i)
  }

  /** A code is consumed once: after a successful verification every later
      one for that e-mail, with any code at any time, fails "already used". */
  lemma VerifyConsumesOnce(rows: seq<OtpRow>, email: string, code: string, now: int, code': string, later: int)
    requires VerifyCheck(rows, email, code, now).Ok?
    ensures VerifyCheck(MarkUsed(rows, VerifyCheck(rows, email, code, now).value), email, code', later)
            == Err(HttpError(BAD_REQUEST, "OTP has already been used"))
  {
    var i := VerifyCheck(rows, email, code, now).value;
    LatestOtpDependsOnKeys(rows, MarkUsed(rows, i), email);
  }

  /** A code past its expiry fails "expired" whatever code is presented. */
  lemma VerifyExpiredWhateverCode(rows: seq<OtpRow>, email: string, code: string, now: int)
    requires LatestOtp(rows, email).Some?
    requires !rows[LatestOtp(rows, email).value].used
    requires now > rows[LatestOtp(rows, email).value].expiresAt
    ensures VerifyCheck(rows, email, code, now) == Err(HttpError(BAD_REQUEST, "OTP has expired"))
  {
  }

  /** An unused, unexpired code that does not match fails with Unauthorized,
      whatever the table. */
  lemma VerifyWrongCodeIsUnauthorized(rows: seq<OtpRow>, email: string, code: string, now: int)
    requires LatestOtp(rows, email).Some?
    requires !rows[LatestOtp(rows, email).value].used
    requires now <= rows[LatestOtp(rows, email).value].expiresAt
    requires !Compare(code, rows[LatestOtp(rows, email).value].code)
    ensures VerifyCheck(rows, email, code, now) == Err(HttpError(UNAUTHORIZED, "Invalid OTP"))
  {
  }

  /** Issuing a code and presenting it before it expires succeeds; presenting
      any other code fails with Unauthorized. */
  lemma {:induction false} SendThenVerify(rows: seq<OtpRow>, email: string, code: string, now: int, newId: string,
                                          at: int, other: string)
    requires OneOtpPerEmail(rows)
    requires at <= now + OTP_TTL_MS
    requires other != code
    ensures VerifyCheck(OtpAfterSend(rows, email, Hash(code), now, newId), email, code, at).Ok?
    ensures VerifyCheck(OtpAfterSend(rows, email, Hash(code), now, newId), email, other, at)
            == Err(HttpError(UNAUTHORIZED, "Invalid OTP"))
  {
    CompareIsExact(code, code);
    CompareIsExact(other, code);
  }

  /** A membership of `userId` in a tenant whose status is ACTIVE. */
  predicate ActiveFor(m: Membership, tenants: seq<Tenant>, userId: string) {
    m.userId == userId &&
    var t := TenantWithId(tenants, m.tenantId);
    t.Some? && tenants[t.value].status == TenantActive
  }

  /** The memberships `login` fetches: those of `userId` whose tenant is
      ACTIVE, `take: 1`, so at most the first one in row order. */
  function ActiveMembership(memberships: seq<Membership>, tenants: seq<Tenant>, userId: string): (r: Option<nat>)
    ensures r.Some? ==> r.value < |memberships| && ActiveFor(memberships[r.value], tenants, userId)
    ensures r.Some? ==> forall j :: 0 <= j < r.value ==> !ActiveFor(memberships[j], tenants, userId)
    ensures r.None? <==> forall j :: 0 <= j < |memberships| ==> !ActiveFor(memberships[j], tenants, userId)
  {
    FindFirst(memberships, (m: Membership) => ActiveFor(m, tenants, userId))
  }

  /** `memberships.find(m => m.isOwner) || memberships[0]`: the first owner
      membership, else the first membership. */
  function PrimaryMembership(fetched: seq<Membership>): (r: Option<nat>)
    ensures r.Some? ==> r.value < |fetched|
    ensures r.None? <==> fetched == []
    ensures (exists j :: 0 <= j < |fetched| && fetched[j].isOwner) ==> r.Some? && fetched[r.value].isOwner
    ensures r.Some? && fetched[r.value].isOwner ==> forall j :: 0 <= j < r.value ==> !fetched[j].isOwner
    ensures fetched != [] && (forall j :: 0 <= j < |fetched| ==> !fetched[j].isOwner) ==> r == Some(0)
  {
    var owner := FindFirst(fetched, (m: Membership) => m.isOwner);
    if owner.Some? then owner else if |fetched| > 0 then Some(0) else None
  }

  /** Because at most one membership is fetched, the owner preference never
      applies: the primary membership is the fetched one, owner or not. */
  lemma PrimaryOfAtMostOne(fetched: seq<Membership>)
    requires |fetched| <= 1
    ensures PrimaryMembership(fetched) == if fetched == [] then None else Some(0)
  {
  }

  class AuthService {
    var users: seq<User>
    var otps: seq<OtpRow>
    var tenants: seq<Tenant>
    var subscriptions: seq<Subscription>
    var roles: seq<Role>
    var memberships: seq<Membership>

    /** The database's keys and foreign keys, and one code row per e-mail. */
    ghost predicate Valid()
      reads this
    {
      && UniqueUserEmails(users)
      && UniqueUserIds(users)
      && UniqueTenantIds(tenants)
      && UniqueSubscriptionIds(subscriptions)
      && UniqueMembershipIds(memberships)
      && OneOtpPerEmail(otps)
      && UniqueOtpIds(otps)
      && MembershipLinksResolve(memberships, tenants, roles)
    }

    /** The rows a registration writes. */
    ghost function Records(): (seq<User>, seq<Tenant>, seq<Subscription>, seq<Membership>)
      reads this
    {
      (users, tenants, subscriptions, memberships)
    }

    /** A fresh database holding only the seeded roles. */
    constructor (seededRoles: seq<Role>)
      ensures Valid()
      ensures users == [] && otps == [] && tenants == [] && subscriptions == [] && memberships == []
      ensures roles == seededRoles
    {
      users, otps, tenants, subscriptions, memberships := [], [], [], [], [];
      roles := seededRoles;
    }

    /** `sendOtp`: refuses an e-mail that already has a user, else stores the
        hash of the drawn code with a ten-minute expiry. */
    method SendOtp(email: string, random: real, now: int, newOtpId: string) returns (r: Result<string>)
      requires Valid()
      requires 0.0 <= random < 1.0
      requires forall j :: 0 <= j < |otps| ==> otps[j].id != newOtpId
      modifies this`otps
      ensures Valid()
      ensures UserWithEmail(users, email).Some? ==>
                r == Err(HttpError(CONFLICT, "User with this email already exists")) && otps == old(otps)
      ensures UserWithEmail(users, email).None? ==>
                && r == Ok("OTP sent to your email")
                && otps == OtpAfterSend(old(otps), email, Hash(NatToString(OtpCodeFrom(random))), now, newOtpId)
    {
      if UserWithEmail(users, email).Some? {
        return Err(HttpError(CONFLICT, "User with this email already exists"));
      }
      var otpCode := NatToString(OtpCodeFrom(random));
      var hashedOtp := Hash(otpCode);
      var expiresAt := now + OTP_TTL_MS;
      var existingOtp := FirstOtp(otps, email);
      if existingOtp.Some? {
        var i := existingOtp.value;
        otps := otps[i := otps[i].(code := hashedOtp, expiresAt := expiresAt, used := false)];
      } else {
        otps := otps + [OtpRow(newOtpId, email, hashedOtp, expiresAt, false, now)];
      }
      r := Ok("OTP sent to your email");
    }

    /** `verifyOtp`: the checks of `VerifyCheck`; only success changes the
        table, and only the `used` flag of the row it read. */
    method VerifyOtp(email: string, code: string, now: int) returns (r: Result<bool>)
      requires Valid()
      modifies this`otps
      ensures Valid()
      ensures VerifyCheck(old(otps), email, code, now).Err? ==>
                r == Err(VerifyCheck(old(otps), email, code, now).failure) && otps == old(otps)
      ensures VerifyCheck(old(otps), email, code, now).Ok? ==>
                r == Ok(true) && otps == MarkUsed(old(otps), VerifyCheck(old(otps), email, code, now).value)
    {
      var found := LatestOtp(otps, email);
      if found.None? {
        return Err(HttpError(BAD_REQUEST, "OTP not found"));
      }
      var otp := otps[found.value];
      if otp.used {
        return Err(HttpError(BAD_REQUEST, "OTP has already been used"));
      }
      if now > otp.expiresAt {
        return Err(HttpError(BAD_REQUEST, "OTP has expired"));
      }
      if !Compare(code, otp.code) {
        return Err(HttpError(UNAUTHORIZED, "Invalid OTP"));
      }
      otps := otps[found.value := otp.(used := true)];
      r := Ok(true);
    }

    /** `register`: verifies (and so consumes) the code first, then checks the
        password confirmation and the e-mail, then creates user, tenant,
        subscription and owner membership together, or none of them. */
    method Register(dto: RegisterDto, now: int, periodEnd: int, ids: NewIds) returns (r: Result<AuthResponse>)
      requires Valid()
      requires UserWithId(users, ids.userId).None?
      requires TenantWithId(tenants, ids.tenantId).None?
      requires forall j :: 0 <= j < |subscriptions| ==> subscriptions[j].id != ids.subscriptionId
      requires forall j :: 0 <= j < |memberships| ==> memberships[j].id != ids.membershipId
      modifies this`otps, this`users, this`tenants, this`subscriptions, this`memberships
      ensures Valid()
      // a failed code check fails the registration and changes nothing
      ensures VerifyCheck(old(otps), dto.email, dto.otpCode, now).Err? ==>
                && r == Err(VerifyCheck(old(otps), dto.email, dto.otpCode, now).failure)
                && otps == old(otps) && Records() == old(Records())
      // past that point the code stays consumed, whatever happens next
      ensures VerifyCheck(old(otps), dto.email, dto.otpCode, now).Ok? ==>
                otps == MarkUsed(old(otps), VerifyCheck(old(otps), dto.email, dto.otpCode, now).value)
      ensures VerifyCheck(old(otps), dto.email, dto.otpCode, now).Ok? && dto.password != dto.confirmPassword ==>
                r == Err(HttpError(BAD_REQUEST, "Passwords do not match")) && Records() == old(Records())
      ensures VerifyCheck(old(otps), dto.email, dto.otpCode, now).Ok? && dto.password == dto.confirmPassword &&
              UserWithEmail(old(users), dto.email).Some? ==>
                r == Err(HttpError(CONFLICT, "User with this email already exists")) && Records() == old(Records())
      ensures VerifyCheck(old(otps), dto.email, dto.otpCode, now).Ok? && dto.password == dto.confirmPassword &&
              UserWithEmail(old(users), dto.email).None? && SystemAdminRole(roles).None? ==>
                r == Err(PlainError("Admin role not found")) && Records() == old(Records())
      ensures VerifyCheck(old(otps), dto.email, dto.otpCode, now).Ok? && dto.password == dto.confirmPassword &&
              UserWithEmail(old(users), dto.email).None? && SystemAdminRole(roles).Some? ==>
                var admin := roles[SystemAdminRole(roles).value];
                && users == old(users) + [User(ids.userId, dto.email, Some(Hash(dto.password)), dto.fullName, true)]
                && tenants == old(tenants) + [Tenant(ids.tenantId, dto.companyName, dto.siret, dto.kbis, ids.userId,
                                                     TenantActive, now, None, None, None, None)]
                && subscriptions == old(subscriptions) + [Subscription(ids.subscriptionId, ids.tenantId, Free, None,
                                                                       "temp_" + ids.userId, 1, SubscriptionActive,
                                                                       now, periodEnd)]
                && memberships == old(memberships) + [Membership(ids.membershipId, ids.userId, ids.tenantId, admin.id, true)]
                && r == Ok(AuthResponse(Signed(Claims(ids.userId, dto.email, ids.tenantId, admin.name)),
                                        UserSummary(ids.userId, dto.email, dto.fullName, true),
                                        TenantSummary(ids.tenantId, dto.companyName, admin.name)))
    {
      var verified := VerifyOtp(dto.email, dto.otpCode, now);
      if verified.Err? {
        return Err(verified.failure);
      }
      if dto.password != dto.confirmPassword {
        return Err(HttpError(BAD_REQUEST, "Passwords do not match"));
      }
      if UserWithEmail(users, dto.email).Some? {
        return Err(HttpError(CONFLICT, "User with this email already exists"));
      }
      var passwordHash := Hash(dto.password);

      // the transaction works on copies and commits them together
      var user := User(ids.userId, dto.email, Some(passwordHash), dto.fullName, true);
      var users' := users + [user];
      var tenant := Tenant(ids.tenantId, dto.companyName, dto.siret, dto.kbis, user.id, TenantActive, now,
                           None, None, None, None);
      var tenants' := tenants + [tenant];
      var subscription := Subscription(ids.subscriptionId, tenant.id, Free, None,
                                       "temp_" + user.id, 1, SubscriptionActive, now, periodEnd);
      var subscriptions' := subscriptions + [subscription];
      var adminRole := SystemAdminRole(roles);
      if adminRole.None? {
        return Err(PlainError("Admin role not found"));
      }
      var role := roles[adminRole.value];
      var membership := Membership(ids.membershipId, user.id, tenant.id, role.id, true);
      var memberships' := memberships + [membership];
      NewRowsKeepKeysUnique(users, tenants, subscriptions, memberships, user, tenant, subscription, membership);
      NewRowsKeepLinks(memberships, tenants, roles, tenant, membership, adminRole.value);
      users, tenants, subscriptions, memberships := users', tenants', subscriptions', memberships';

      var claims := Claims(user.id, user.email, tenant.id, role.name);
      r := Ok(AuthResponse(Signed(claims),
                           UserSummary(user.id, user.email, user.fullName, user.emailVerified),
                           TenantSummary(tenant.id, tenant.name, role.name)));
    }

    /** The credentials `login` accepts: a user with this e-mail, a non-empty
        stored hash, and a password that matches it. */
    ghost predicate CredentialsAccepted(email: string, password: string)
      reads this
    {
      var u := UserWithEmail(users, email);
      u.Some? && Truthy(users[u.value].passwordHash) && Compare(password, users[u.value].passwordHash.value)
    }

    /** `login`: one generic failure for every credential problem; otherwise
        the token names the fetched active-tenant membership and its role. */
    method Login(dto: LoginDto) returns (r: Result<AuthResponse>)
      requires Valid()
      ensures !CredentialsAccepted(dto.email, dto.password) ==>
                r == Err(HttpError(UNAUTHORIZED, "Invalid credentials"))
      ensures CredentialsAccepted(dto.email, dto.password) ==>
                var user := users[UserWithEmail(users, dto.email).value];
                var k := ActiveMembership(memberships, tenants, user.id);
                && (k.None? ==> r == Err(HttpError(UNAUTHORIZED, "No active tenant found")))
                && (k.Some? ==>
                      var m := memberships[k.value];
                      var tenant := tenants[TenantWithId(tenants, m.tenantId).value];
                      var role := roles[RoleWithId(roles, m.roleId).value];
                      && tenant.status == TenantActive && m.userId == user.id
                      && r == Ok(AuthResponse(Signed(Claims(user.id, user.email, m.tenantId, role.name)),
                                              UserSummary(user.id, user.email, user.fullName, user.emailVerified),
                                              TenantSummary(tenant.id, tenant.name, role.name))))
    {
      var found := UserWithEmail(users, dto.email);
      if found.None? || !Truthy(users[found.value].passwordHash) {
        return Err(HttpError(UNAUTHORIZED, "Invalid credentials"));
      }
      var user := users[found.value];
      if !Compare(dto.password, user.passwordHash.value) {
        return Err(HttpError(UNAUTHORIZED, "Invalid credentials"));
      }
      var active := ActiveMembership(memberships, tenants, user.id);
      var fetched := if active.Some? then [memberships[active.value]] else [];
      var primary := PrimaryMembership(fetched);
      if primary.None? {
        return Err(HttpError(UNAUTHORIZED, "No active tenant found"));
      }
      PrimaryOfAtMostOne(fetched);
      var m := fetched[primary.value];
      var tenant := tenants[TenantWithId(tenants, m.tenantId).value];
      var role := roles[RoleWithId(roles, m.roleId).value];
      var claims := Claims(user.id, user.email, m.tenantId, role.name);
      r := Ok(AuthResponse(Signed(claims),
                           UserSummary(user.id, user.email, user.fullName, user.emailVerified),
                           TenantSummary(tenant.id, tenant.name, role.name)));
    }

    /** `googleOAuthRegister` is not implemented: it always fails. */
    method GoogleOAuthRegister(googleIdToken: string) returns (r: Result<AuthResponse>)
      ensures r == Err(HttpError(BAD_REQUEST, "Google OAuth registration not yet implemented"))
    {
      r := Err(HttpError(BAD_REQUEST, "Google OAuth registration not yet implemented"));
    }
  }

  /** Rows with fresh keys keep every key unique. */
  lemma NewRowsKeepKeysUnique(users: seq<User>, tenants: seq<Tenant>, subscriptions: seq<Subscription>,
                              memberships: seq<Membership>, user: User, tenant: Tenant, subscription: Subscription,
                              m: Membership)
    requires UniqueUserEmails(users) && UniqueUserIds(users) && UniqueTenantIds(tenants)
    requires UniqueSubscriptionIds(subscriptions) && UniqueMembershipIds(memberships)
    requires UserWithEmail(users, user.email).None? && UserWithId(users, user.id).None?
    requires TenantWithId(tenants, tenant.id).None?
    requires forall j :: 0 <= j < |subscriptions| ==> subscriptions[j].id != subscription.id
    requires forall j :: 0 <= j < |memberships| ==> memberships[j].id != m.id
    ensures UniqueUserEmails(users + [user]) && UniqueUserIds(users + [user])
    ensures UniqueTenantIds(tenants + [tenant])
    ensures UniqueSubscriptionIds(subscriptions + [subscription])
    ensures UniqueMembershipIds(memberships + [m])
  {
  }

  /** Appending a tenant and a membership that points at it and at an existing
      role keeps every membership's foreign keys resolvable. */
  lemma NewRowsKeepLinks(memberships: seq<Membership>, tenants: seq<Tenant>, roles: seq<Role>,
                         tenant: Tenant, m: Membership, roleIndex: nat)
    requires MembershipLinksResolve(memberships, tenants, roles)
    requires m.tenantId == tenant.id
    requires roleIndex < |roles| && roles[roleIndex].id == m.roleId
    ensures MembershipLinksResolve(memberships + [m], tenants + [tenant], roles)
  {
    var tenants' := tenants + [tenant];
    var memberships' := memberships + [m];
    forall i | 0 <= i < |memberships'|
      ensures TenantWithId(tenants', memberships'[i].tenantId).Some?
      ensures RoleWithId(roles, memberships'[i].roleId).Some?
    {
      if i < |memberships| {
        var t := TenantWithId(tenants, memberships[i].tenantId).value;
        assert tenants'[t].id == memberships'[i].tenantId;
      } else {
        assert tenants'[|tenants|].id == memberships'[i].tenantId;
        assert roles[roleIndex].id == memberships'[i].roleId;
      }
    }
  }
}
