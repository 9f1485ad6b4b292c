/**
 * Request guards of src/helpers/guard.rs: the optional `Authorization`
 * header becomes decoded claims or a classified error, the claims become a
 * `NormalUser` or an `AdminUser` principal, and `check_perm` decides "own
 * resource or admin". Also the token types the controllers take
 * (`UserToken<User>`, `UserToken<Admin>`), modelled by the same rules.
 *
 * The JWT decoder (signature check and default validation with the
 * process secret) is the parameter `decode`; its error type `J` is never
 * looked at.
 */
module Guard {
  import opened Wrappers
  import opened Primitives
  import opened Errors
  import opened AuthService
  import UserService

  /** The bearer scheme prefix (section 2.1 of RFC 6750), as the guard strips it. */
  const BEARER: string := "Bearer "

  const TOKEN_NOT_FOUND: Error := Unauthorized("token not found")
  const INVALID_TOKEN: Error := Unauthorized("invalid token")
  const PERMISSION_DENIED: Error := Forbidden("permission denied")

  /** Rocket's `Outcome` of a request guard: a value, or a status with an error. */
  datatype Outcome<+T> = Success(value: T) | Failure(status: u16, error: Error)

  /** Rocket's `Result<T, E>` guard: the failure's error without its status. */
  function AsResult<T>(o: Outcome<T>): Result<T, Error>
  {
    match o
    case Success(v) => Ok(v)
    case Failure(_, e) => Err(e)
  }

  predicate StartsWith(s: string, p: string)
  {
    |p| <= |s| && s[..|p|] == p
  }

  /** `k` copies of `p` in a row. */
  function Repeat(p: string, k: nat): string
  {
    if k == 0 then [] else p + Repeat(p, k - 1)
  }

  /**
   * `str::trim_left_matches(p)`: strip `p` from the front of `s` for as long
   * as `s` starts with it. The result is a suffix of `s` that no longer
   * starts with `p` (an empty pattern strips nothing).
   */
  function TrimLeftMatches(s: string, p: string): (r: string)
    ensures |r| <= |s| && r == s[|s| - |r|..]
    ensures |p| > 0 ==> !StartsWith(r, p)
    ensures |p| == 0 ==> r == s
    decreases |s|
  {
    if |p| > 0 && StartsWith(s, p) then TrimLeftMatches(s[|p|..], p) else s
  }

  /** Any number of leading copies of `p` is stripped, and nothing after them. */
  lemma {:induction false} TrimStripsRepeats(p: string, k: nat, t: string)
    requires |p| > 0
    ensures TrimLeftMatches(Repeat(p, k) + t, p) == TrimLeftMatches(t, p)
  {
    if k == 0 {
      assert Repeat(p, k) + t == t;
    } else {
      var s := Repeat(p, k) + t;
      assert s == p + (Repeat(p, k - 1) + t);
      assert StartsWith(s, p);
      assert s[|p|..] == Repeat(p, k - 1) + t;
      TrimStripsRepeats(p, k - 1, t);
    }
  }

  /** What the trim removes is a whole number of copies of `p`. */
  lemma {:induction false} TrimRemovesRepeats(s: string, p: string) returns (k: nat)
    requires |p| > 0
    ensures s == Repeat(p, k) + TrimLeftMatches(s, p)
    decreases |s|
  {
    if StartsWith(s, p) {
      var k' := TrimRemovesRepeats(s[|p|..], p);
      k := k' + 1;
      calc {
        s;
        s[..|p|] + s[|p|..];
        p + (Repeat(p, k') + TrimLeftMatches(s[|p|..], p));
        (p + Repeat(p, k')) + TrimLeftMatches(s, p);
      }
    } else {
      k := 0;
      assert Repeat(p, 0) + s == s;
    }
  }

  /**
   * A header of the bearer form, with any number of repeated scheme
   * prefixes, hands the decoder exactly the credential after them.
   */
  lemma BearerCredential(k: nat, token: string)
    requires k >= 1
    requires !StartsWith(token, BEARER)
    ensures TrimLeftMatches(Repeat(BEARER, k) + token, BEARER) == token
    ensures TrimLeftMatches(BEARER + token, BEARER) == token
  {
    TrimStripsRepeats(BEARER, k, token);
    TrimStripsRepeats(BEARER, 1, token);
    assert Repeat(BEARER, 1) == BEARER;
  }

  /**
   * `get_claims!`: no header is 401 "token not found"; otherwise the header
   * with its leading "Bearer " prefixes stripped is decoded, and any decode
   * failure is 401 "invalid token".
   */
  function GetClaims<J>(header: Option<string>, decode: string -> Result<JwtClaims, J>): (r: Outcome<JwtClaims>)
    ensures r.Failure? ==> r.status == r.error.code
    ensures header.None? ==> r == Failure(401, TOKEN_NOT_FOUND)
    ensures header.Some? ==> (r.Success? <==> decode(TrimLeftMatches(header.value, BEARER)).Ok?)
    ensures header.Some? && r.Success? ==> r.value == decode(TrimLeftMatches(header.value, BEARER)).value
    ensures header.Some? && r.Failure? ==> r.error == INVALID_TOKEN
  {
    match header
    case None => Failure(STATUS_UNAUTHORIZED, TOKEN_NOT_FOUND)
    case Some(bearerToken) =>
      match decode(TrimLeftMatches(bearerToken, BEARER))
      case Err(_) => Failure(STATUS_UNAUTHORIZED, INVALID_TOKEN)
      case Ok(claims) => Success(claims)
  }

  /**
   * The guard tells no decode failure from another: two decoders that both
   * reject the credential, for whatever reasons, give the same outcome.
   */
  lemma DecodeFailuresAreUniform<J, K>(header: string, d1: string -> Result<JwtClaims, J>,
                                       d2: string -> Result<JwtClaims, K>)
    requires d1(TrimLeftMatches(header, BEARER)).Err?
    requires d2(TrimLeftMatches(header, BEARER)).Err?
    ensures GetClaims(Some(header), d1) == GetClaims(Some(header), d2) == Failure(401, INVALID_TOKEN)
  {
  }

  datatype NormalUser = NormalUser(userId: i32)

  datatype AdminUser = AdminUser(userId: i32, username: string)

  /** `NormalUser::from_request`: any decoded token gives its user id. */
  function NormalUserFromRequest<J>(header: Option<string>, decode: string -> Result<JwtClaims, J>)
    : (r: Outcome<NormalUser>)
    ensures r.Failure? ==> r.status == r.error.code
    ensures r.Success? <==> GetClaims(header, decode).Success?
    ensures r.Success? ==> r.value.userId == GetClaims(header, decode).value.userId
    ensures r.Failure? ==> r.error == GetClaims(header, decode).error
  {
    match GetClaims(header, decode)
    case Success(claims) => Success(NormalUser(claims.userId))
    case Failure(s, e) => Failure(s, e)
  }

  /**
   * `AdminUser::from_request`: a decoded token with the admin claim gives
   * its user id and name; one without it is 403 "permission denied".
   */
  function AdminUserFromRequest<J>(header: Option<string>, decode: string -> Result<JwtClaims, J>)
    : (r: Outcome<AdminUser>)
    ensures r.Failure? ==> r.status == r.error.code
    ensures r.Success? <==> GetClaims(header, decode).Success? && GetClaims(header, decode).value.admin
    ensures r.Success? ==>
      r.value == AdminUser(GetClaims(header, decode).value.userId, GetClaims(header, decode).value.username)
    ensures GetClaims(header, decode).Success? && !GetClaims(header, decode).value.admin ==>
      r == Failure(403, PERMISSION_DENIED)
    ensures GetClaims(header, decode).Failure? ==>
      r == Failure(GetClaims(header, decode).status, GetClaims(header, decode).error)
  {
    match GetClaims(header, decode)
    case Success(claims) =>
      if claims.admin then Success(AdminUser(claims.userId, claims.username))
      else Failure(STATUS_FORBIDDEN, PERMISSION_DENIED)
    case Failure(s, e) => Failure(s, e)
  }

  /** No header: both guards fail with 401 "token not found". */
  lemma MissingHeaderIsUnauthorized<J>(decode: string -> Result<JwtClaims, J>)
    ensures NormalUserFromRequest(None, decode) == Failure(401, Error(401, "token not found"))
    ensures AdminUserFromRequest(None, decode) == Failure(401, Error(401, "token not found"))
  {
  }

  /**
   * `check_perm`: Ok when the user guard resolved to the owner; otherwise
   * the admin guard's outcome, its error returned unchanged.
   */
  function CheckPerm(userId: i32, user: Result<NormalUser, Error>, admin: Result<AdminUser, Error>)
    : (r: Result<(), Error>)
    ensures user.Ok? && user.value.userId == userId ==> r.Ok?
    ensures !(user.Ok? && user.value.userId == userId) ==> (r.Ok? <==> admin.Ok?)
    ensures !(user.Ok? && user.value.userId == userId) && admin.Err? ==> r.error == admin.error
  {
    if user.Ok? && user.value.userId == userId then Ok(())
    else match admin
      case Ok(_) => Ok(())
      case Err(e) => Err(e)
  }

  /**
   * `check_perm` on the two guards of one request: a missing or undecodable
   * token reports 401 with its own message, never 403; a decoded token
   * passes iff it is the owner's or an admin's, and is otherwise 403.
   */
  lemma CheckPermOnRequest<J>(userId: i32, header: Option<string>, decode: string -> Result<JwtClaims, J>)
    ensures var r := CheckPerm(userId, AsResult(NormalUserFromRequest(header, decode)),
                               AsResult(AdminUserFromRequest(header, decode)));
      && (header.None? ==> r == Err(TOKEN_NOT_FOUND))
      && (header.Some? && decode(TrimLeftMatches(header.value, BEARER)).Err? ==> r == Err(INVALID_TOKEN))
      && (header.Some? && decode(TrimLeftMatches(header.value, BEARER)).Ok? ==>
            var c := decode(TrimLeftMatches(header.value, BEARER)).value;
            (r.Ok? <==> c.userId == userId || c.admin) && (r.Err? ==> r.error == PERMISSION_DENIED))
  {
  }

  /** Access to resources of `owner`: the token is the owner's, or an admin's. */
  predicate OwnerOrAdmin(claims: JwtClaims, owner: i32)
  {
    claims.userId == owner || claims.admin
  }

  /** `UserToken<User>`: the decoded claims, for routes open to ordinary users. */
  datatype UserToken = UserToken(claims: JwtClaims)
  {
    /** `match_user_id`. */
    predicate MatchUserId(id: i32)
    {
      claims.userId == id
    }

    /** `has_perm(id)`: own resource, or the same token's admin claim; otherwise 403. */
    function HasPerm(id: i32): (r: Result<(), Error>)
      ensures r.Ok? <==> OwnerOrAdmin(claims, id)
      ensures r.Err? ==> r.error == PERMISSION_DENIED
    {
      if MatchUserId(id) then Ok(())
      else if claims.admin then Ok(())
      else Err(PERMISSION_DENIED)
    }
  }

  /** `UserToken<Admin>`: the decoded claims, for admin-only routes. */
  datatype AdminToken = AdminToken(claims: JwtClaims)
  {
    /** `has_perm()`: the admin claim, as `AdminUser` checks it; otherwise 403. */
    function HasPerm(): (r: Result<(), Error>)
      ensures r.Ok? <==> claims.admin
      ensures r.Err? ==> r.error == PERMISSION_DENIED
    {
      if claims.admin then Ok(()) else Err(PERMISSION_DENIED)
    }
  }

  /** Resolution of a `UserToken<User>` guard: the claims, or the header's error. */
  function ResolveUserToken<J>(header: Option<string>, decode: string -> Result<JwtClaims, J>)
    : (r: Result<UserToken, Error>)
    ensures header.None? ==> r == Err(TOKEN_NOT_FOUND)
    ensures header.Some? ==>
      match decode(TrimLeftMatches(header.value, BEARER))
      case Ok(claims) => r == Ok(UserToken(claims))
      case Err(_) => r == Err(INVALID_TOKEN)
  {
    match GetClaims(header, decode)
    case Success(claims) => Ok(UserToken(claims))
    case Failure(_, e) => Err(e)
  }

  /** Resolution of a `UserToken<Admin>` guard: the claims, or the header's error. */
  function ResolveAdminToken<J>(header: Option<string>, decode: string -> Result<JwtClaims, J>)
    : (r: Result<AdminToken, Error>)
    ensures header.None? ==> r == Err(TOKEN_NOT_FOUND)
    ensures header.Some? ==>
      match decode(TrimLeftMatches(header.value, BEARER))
      case Ok(claims) => r == Ok(AdminToken(claims))
      case Err(_) => r == Err(INVALID_TOKEN)
  {
    match GetClaims(header, decode)
    case Success(claims) => Ok(AdminToken(claims))
    case Failure(_, e) => Err(e)
  }

  /** `token.and_then(|token| token.has_perm(id))`, the first step of an owner-or-admin route. */
  function Authorize(token: Result<UserToken, Error>, owner: i32): (r: Result<(), Error>)
    ensures token.Err? ==> r == Err(token.error)
    ensures token.Ok? ==> (r.Ok? <==> OwnerOrAdmin(token.value.claims, owner))
    ensures token.Ok? && r.Err? ==> r.error == PERMISSION_DENIED
  {
    match token
    case Err(e) => Err(e)
    case Ok(t) => t.HasPerm(owner)
  }

  /** `token.and_then(|token| token.has_perm())`, the first step of an admin-only route. */
  function AuthorizeAdmin(token: Result<AdminToken, Error>): (r: Result<(), Error>)
    ensures token.Err? ==> r == Err(token.error)
    ensures token.Ok? ==> (r.Ok? <==> token.value.claims.admin)
    ensures token.Ok? && r.Err? ==> r.error == PERMISSION_DENIED
  {
    match token
    case Err(e) => Err(e)
    case Ok(t) => t.HasPerm()
  }

  /**
   * The token API the controllers use decides exactly as `check_perm` over
   * the two guards of the same request: same successes, same errors.
   */
  lemma UserTokenAgreesWithCheckPerm<J>(userId: i32, header: Option<string>, decode: string -> Result<JwtClaims, J>)
    ensures Authorize(ResolveUserToken(header, decode), userId)
         == CheckPerm(userId, AsResult(NormalUserFromRequest(header, decode)),
                      AsResult(AdminUserFromRequest(header, decode)))
  {
  }

  /** The admin token API decides exactly as the `AdminUser` guard. */
  lemma AdminTokenAgreesWithAdminUser<J>(header: Option<string>, decode: string -> Result<JwtClaims, J>)
    ensures AuthorizeAdmin(ResolveAdminToken(header, decode)).Ok? <==> AdminUserFromRequest(header, decode).Success?
    ensures AuthorizeAdmin(ResolveAdminToken(header, decode)).Err? ==>
      AuthorizeAdmin(ResolveAdminToken(header, decode)).error == AdminUserFromRequest(header, decode).error
  {
  }

  /**
   * A token issued by `login` for `u`, sent as "Bearer <token>" and decoded
   * back to the claims it was made from, resolves to `u`'s id; it passes the
   * admin guard, carrying `u`'s id and name, iff `u` is an admin, and is
   * otherwise 403.
   */
  lemma LoginTokenResolves<J, K>(u: UserService.User, token: string, encode: JwtClaims -> Result<string, J>,
                                 decode: string -> Result<JwtClaims, K>)
    requires Login(u, encode) == Ok(token)
    requires decode(token) == Ok(ClaimsOf(u))
    requires !StartsWith(token, BEARER)
    ensures NormalUserFromRequest(Some(BEARER + token), decode) == Success(NormalUser(u.id))
    ensures u.admin ==> AdminUserFromRequest(Some(BEARER + token), decode) == Success(AdminUser(u.id, u.username))
    ensures !u.admin ==> AdminUserFromRequest(Some(BEARER + token), decode) == Failure(403, PERMISSION_DENIED)
  {
    BearerCredential(1, token);
  }
}
