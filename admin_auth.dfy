/** The back-office application's login: an administrator signs in with e-mail
    and password; success stamps the administrator's row with the login time. */
module AdminAuth {
  import opened Common
  import opened Crypto
  import opened Schema

  datatype AdminLoginDto = AdminLoginDto(email: string, password: string)

  datatype AdminClaims = AdminClaims(sub: string, email: string, role: string)

  datatype AdminSummary = AdminSummary(id: string, email: string, role: string)

  datatype AdminAuthResponse = AdminAuthResponse(accessToken: Token<AdminClaims>, admin: AdminSummary)

  function AdminWithEmail(admins: seq<AdminUser>, email: string): Option<nat> {
    FindFirst(admins, (a: AdminUser) => a.email == email)
  }

  predicate UniqueAdminKeys(admins: seq<AdminUser>) {
    forall i, j :: 0 <= i < j < |admins| ==> admins[i].email != admins[j].email && admins[i].id != admins[j].id
  }

  /** The table after row `i` records a login at `now`: that row's
      `lastLoginAt` is `now`, and nothing else differs. */
  function StampLogin(admins: seq<AdminUser>, i: nat, now: int): (r: seq<AdminUser>)
    requires i < |admins|
    ensures |r| == |admins|
    ensures r[i].lastLoginAt == Some(now) && r[i].(lastLoginAt := admins[i].lastLoginAt) == admins[i]
    ensures forall j :: 0 <= j < |admins| && j != i ==> r[j] == admins[j]
    ensures UniqueAdminKeys(admins) ==> UniqueAdminKeys(r)
  {
    admins[i := admins[i].(lastLoginAt := Some(now))]
  }

  /** The credentials `login` accepts: the administrator found by e-mail
      holds the hash of exactly this password. */
  predicate Accepts(admins: seq<AdminUser>, email: string, password: string): (ok: bool)
    ensures ok <==> AdminWithEmail(admins, email).Some? &&
                    admins[AdminWithEmail(admins, email).value].passwordHash == Some(Hash(password))
  {
    var a := AdminWithEmail(admins, email);
    a.Some? && Truthy(admins[a.value].passwordHash) && Compare(password, admins[a.value].passwordHash.value)
  }

  class AdminAuthService {
    var admins: seq<AdminUser>

    ghost predicate Valid()
      reads this
    {
      UniqueAdminKeys(admins)
    }

    constructor (seeded: seq<AdminUser>)
      requires UniqueAdminKeys(seeded)
      ensures Valid() && admins == seeded
    {
      admins := seeded;
    }

    /** `login`: every credential failure gives the same Unauthorized and
        changes nothing; success updates only `lastLoginAt` of that row and
        returns the row's id, e-mail and role. */
    method Login(dto: AdminLoginDto, now: int) returns (r: Result<AdminAuthResponse>)
      requires Valid()
      modifies this
      ensures Valid()
      ensures !Accepts(old(admins), dto.email, dto.password) ==>
                r == Err(HttpError(UNAUTHORIZED, "Invalid credentials")) && admins == old(admins)
      ensures Accepts(old(admins), dto.email, dto.password) ==>
                var i := AdminWithEmail(old(admins), dto.email).value;
                var a := old(admins)[i];
                && admins == StampLogin(old(admins), i, now)
                && r == Ok(AdminAuthResponse(Signed(AdminClaims(a.id, a.email, a.role)),
                                             AdminSummary(a.id, a.email, a.role)))
    {
      var found := AdminWithEmail(admins, dto.email);
      if found.None? || !Truthy(admins[found.value].passwordHash) {
        return Err(HttpError(UNAUTHORIZED, "Invalid credentials"));
      }
      var adminUser := admins[found.value];
      if !Compare(dto.password, adminUser.passwordHash.value) {
        return Err(HttpError(UNAUTHORIZED, "Invalid credentials"));
      }
      admins := admins[found.value := adminUser.(lastLoginAt := Some(now))];
      var claims := AdminClaims(adminUser.id, adminUser.email, adminUser.role);
      r := Ok(AdminAuthResponse(Signed(claims), AdminSummary(adminUser.id, adminUser.email, adminUser.role)));
    }
  }

  /** A wrong password is refused with the same answer as an unknown e-mail. */
  lemma WrongPasswordLooksLikeUnknownEmail(admins: seq<AdminUser>, i: nat, password: string, plain: string)
    requires i < |admins| && UniqueAdminKeys(admins)
    requires admins[i].passwordHash == Some(Hash(plain)) && password != plain
    ensures !Accepts(admins, admins[i].email, password)
  {
    CompareIsExact(password, plain);
    assert AdminWithEmail(admins, admins[i].email) == Some(i);
  }
}
