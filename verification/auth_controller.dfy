/**
 * `POST /login` of src/controllers/auth.rs: look the user up by name,
 * check the password, sign a token. An unknown name and a wrong password
 * give the same 400 error.
 */
module AuthController {
  import opened Wrappers
  import opened Primitives
  import opened Errors
  import opened Db
  import opened Macros
  import opened UserService
  import AuthService
  import Digest
  import Utf8

  const WRONG_CREDENTIALS: Error := BadRequest("wrong username or password")
  const JWT_FAILURE: Error := InternalServerError("fail to generate jwt token")

  datatype LoginPayload = LoginPayload(username: string, password: string)

  /**
   * What login reaches: the pool, `get_user_by_name` (a user or a database
   * error `D`), `Error::from`, the digest settings and the JWT encoder.
   */
  datatype LoginDeps<!D, J> = LoginDeps(poolAvailable: bool, findByName: string -> Result<User, D>,
                                        fromDb: D -> Error, digest: Digest.DigestEnv,
                                        encode: AuthService.JwtClaims -> Result<string, J>)

  /** The user lookup, with a not-found error folded into the credentials error. */
  function LookUp<D, J>(name: string, deps: LoginDeps<D, J>): (r: Result<User, Error>)
    ensures r.Ok? <==> deps.poolAvailable && deps.findByName(name).Ok?
    ensures r.Ok? ==> r.value == deps.findByName(name).value
    ensures r.Err? ==> r.error.code != STATUS_NOT_FOUND
  {
    var found :=
      match GetConn(deps.poolAvailable)
      case Err(e) => Err(e)
      case Ok(_) => CallServ(deps.findByName(name), deps.fromDb);
    match found
    case Err(e) => if e.code == STATUS_NOT_FOUND then Err(WRONG_CREDENTIALS) else Err(e)
    case Ok(u) => Ok(u)
  }

  /** `login`: lookup, then password check, then token, as "token: <jwt>". */
  function Login<D, J>(payload: LoginPayload, deps: LoginDeps<D, J>): (r: Result<string, Error>)
    ensures !deps.poolAvailable ==> r == Err(Error(500, "database connection pool timeout"))
    ensures deps.poolAvailable && deps.findByName(payload.username).Err? ==>
      var e := deps.fromDb(deps.findByName(payload.username).error);
      r == if e.code == 404 then Err(Error(400, "wrong username or password")) else Err(e)
    ensures deps.poolAvailable && deps.findByName(payload.username).Ok? ==>
      var u := deps.findByName(payload.username).value;
      && (!u.VerifyPassword(deps.digest, payload.password) ==> r == Err(WRONG_CREDENTIALS))
      && (u.VerifyPassword(deps.digest, payload.password) ==>
            match deps.encode(AuthService.JwtClaims(u.id, u.username, u.admin))
            case Ok(token) => r == Ok("token: " + token)
            case Err(_) => r == Err(Error(500, "fail to generate jwt token")))
  {
    var checked :=
      match LookUp(payload.username, deps)
      case Err(e) => Err(e)
      case Ok(u) => if !u.VerifyPassword(deps.digest, payload.password) then Err(WRONG_CREDENTIALS) else Ok(u);
    match checked
    case Err(e) => Err(e)
    case Ok(u) =>
      match AuthService.Login(u, deps.encode)
      case Err(_) => Err(JWT_FAILURE)
      case Ok(token) => Ok("token: " + token)
  }

  /**
   * No username enumeration: an unknown username and a known one with a
   * wrong password get the same result, hence the same response.
   */
  lemma UnknownUserLikeWrongPassword<D, J>(payload: LoginPayload, unknown: LoginDeps<D, J>, known: LoginDeps<D, J>)
    requires unknown.poolAvailable && known.poolAvailable
    requires unknown.findByName(payload.username).Err?
    requires unknown.fromDb(unknown.findByName(payload.username).error).code == STATUS_NOT_FOUND
    requires known.findByName(payload.username).Ok?
    requires !known.findByName(payload.username).value.VerifyPassword(known.digest, payload.password)
    ensures Login(payload, unknown) == Login(payload, known) == Err(WRONG_CREDENTIALS)
    ensures CallCtrl(Login(payload, unknown)) == CallCtrl(Login(payload, known))
         == Response(400, ErrorJson(Error(400, "wrong username or password")))
  {
  }

  /**
   * A login succeeds only for a user found by that name whose digest
   * verifies the password; with a digest made from `stored`, only `stored`
   * itself logs in, unless PBKDF2 maps the attempt and `stored` to the same
   * key under the user's salt.
   */
  lemma LoginNeedsStoredPassword<D, J>(payload: LoginPayload, deps: LoginDeps<D, J>, stored: string)
    requires deps.findByName(payload.username).Ok?
    requires var u := deps.findByName(payload.username).value;
      && u.passwordDigest == Digest.DigestOf(deps.digest, u.username, stored)
      && var salt := Digest.SaltOf(deps.digest.digestSalt, u.username);
         Digest.NoCollision(deps.digest.pbkdf2, Digest.PBKDF2_ITER, salt, Utf8.AsBytes(payload.password),
                            salt, Utf8.AsBytes(stored))
    ensures Login(payload, deps).Ok? ==> payload.password == stored
  {
    var u := deps.findByName(payload.username).value;
    Digest.VerifiesOnlyOwnPassword(deps.digest, u.username, stored, payload.password);
  }

  /**
   * The right password with a working pool and encoder answers 200 with
   * "token: " and the encoded claims of the user.
   */
  lemma LoginSucceeds<D, J>(payload: LoginPayload, deps: LoginDeps<D, J>, token: string)
    requires deps.poolAvailable && deps.findByName(payload.username).Ok?
    requires var u := deps.findByName(payload.username).value;
      && u.passwordDigest == Digest.DigestOf(deps.digest, u.username, payload.password)
      && deps.encode(AuthService.ClaimsOf(u)) == Ok(token)
    ensures CallCtrl(Login(payload, deps)) == Response(200, Json("token: " + token))
  {
    var u := deps.findByName(payload.username).value;
    Digest.DigestVerifies(deps.digest, u.username, payload.password);
  }
}
