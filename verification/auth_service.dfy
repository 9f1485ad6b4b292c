/** src/services/auth.rs: the claims a login token carries, and token issue. */
module AuthService {
  import opened Wrappers
  import opened Primitives
  import opened UserService

  /** `JwtClaims`: who the token is for and whether it grants admin rights. */
  datatype JwtClaims = JwtClaims(userId: i32, username: string, admin: bool)

  /** The claims `login` signs for `u`. */
  function ClaimsOf(u: User): (c: JwtClaims)
    ensures c.userId == u.id && c.username == u.username && c.admin == u.admin
  {
    JwtClaims(u.id, u.username, u.admin)
  }

  /**
   * `login`: sign the user's claims. `encode` is the JWT encoder with the
   * process secret and the default header; its result, success or error,
   * is returned as it is.
   */
  function Login<J>(u: User, encode: JwtClaims -> Result<string, J>): (r: Result<string, J>)
    ensures r == encode(JwtClaims(u.id, u.username, u.admin))
  {
    encode(ClaimsOf(u))
  }
}
