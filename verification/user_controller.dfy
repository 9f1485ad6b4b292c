/**
 * The user routes of src/controllers/user.rs. Each handler is given the
 * already resolved token and the database boundary, and returns its result
 * together with the service call it made, so that "which error wins" and
 * "no service call on failure" are stated exactly.
 */
module UserController {
  import opened Wrappers
  import opened Primitives
  import opened Errors
  import opened Models
  import opened Guard
  import opened Db
  import opened Macros

  const PASSWORD_MISMATCH: Error := BadRequest("password mismatch")

  /** The form of `POST /users`. */
  datatype UserPayload = UserPayload(username: string, email: string, password: string, confirmPassword: string)

  /** The form of `PUT /users/<id>`: every field optional. */
  datatype UpdatePayload = UpdatePayload(username: Option<string>, email: Option<string>,
                                         password: Option<string>, confirmPassword: Option<string>)

  /** `GET /users/me`: the user named by the token itself. */
  function Me<V, D>(token: Result<UserToken, Error>, db: Database<V, D>): (h: Handled<V>)
    ensures token.Err? ==> Refused(h, token.error)
    ensures token.Ok? && !db.poolAvailable ==> Refused(h, Error(500, "database connection pool timeout"))
    ensures token.Ok? && db.poolAvailable ==> Served(h, db, Call.GetUserById(token.value.claims.userId))
  {
    match token
    case Err(e) => Handled(Err(e), None)
    case Ok(user) => Dispatch(db, Call.GetUserById(user.claims.userId))
  }

  /** `GET /users`: admin tokens only. */
  function GetUsers<V, D>(token: Result<AdminToken, Error>, db: Database<V, D>): (h: Handled<V>)
    ensures token.Err? ==> Refused(h, token.error)
    ensures token.Ok? && !token.value.claims.admin ==> Refused(h, Error(403, "permission denied"))
    ensures token.Ok? && token.value.claims.admin && !db.poolAvailable ==> Refused(h, POOL_TIMEOUT)
    ensures token.Ok? && token.value.claims.admin && db.poolAvailable ==> Served(h, db, Call.GetUserList)
  {
    match AuthorizeAdmin(token)
    case Err(e) => Handled(Err(e), None)
    case Ok(_) => Dispatch(db, Call.GetUserList)
  }

  /** `POST /users`: no token; the two passwords must agree before anything else. */
  function CreateUser<V, D>(payload: UserPayload, db: Database<V, D>): (h: Handled<V>)
    ensures payload.password != payload.confirmPassword ==> Refused(h, Error(400, "password mismatch"))
    ensures payload.password == payload.confirmPassword && !db.poolAvailable ==> Refused(h, POOL_TIMEOUT)
    ensures payload.password == payload.confirmPassword && db.poolAvailable ==>
      Served(h, db, Call.CreateUser(RawUser(payload.username, payload.email, payload.password)))
  {
    if payload.password != payload.confirmPassword then Handled(Err(PASSWORD_MISMATCH), None)
    else Dispatch(db, Call.CreateUser(RawUser(payload.username, payload.email, payload.password)))
  }

  /** `GET /users/<id>`: the owner or an admin. */
  function GetUserById<V, D>(id: i32, token: Result<UserToken, Error>, db: Database<V, D>): (h: Handled<V>)
    ensures token.Err? ==> Refused(h, token.error)
    ensures token.Ok? && !OwnerOrAdmin(token.value.claims, id) ==> Refused(h, PERMISSION_DENIED)
    ensures token.Ok? && OwnerOrAdmin(token.value.claims, id) && !db.poolAvailable ==> Refused(h, POOL_TIMEOUT)
    ensures token.Ok? && OwnerOrAdmin(token.value.claims, id) && db.poolAvailable ==> Served(h, db, Call.GetUserById(id))
  {
    match Authorize(token, id)
    case Err(e) => Handled(Err(e), None)
    case Ok(_) => Dispatch(db, Call.GetUserById(id))
  }

  /** The confirmation check of `update_user_by_id`, as the handler writes it. */
  predicate ConfirmMismatch(payload: UpdatePayload)
  {
    payload.password.Some? &&
    (payload.confirmPassword.None? || payload.confirmPassword.value != payload.password.value)
  }

  /**
   * `PUT /users/<id>`: permission first, then a given password must be
   * confirmed; the update carries the optional fields as they came.
   */
  function UpdateUserById<V, D>(id: i32, payload: UpdatePayload, token: Result<UserToken, Error>,
                                db: Database<V, D>): (h: Handled<V>)
    ensures token.Err? ==> Refused(h, token.error)
    ensures token.Ok? && !OwnerOrAdmin(token.value.claims, id) ==> Refused(h, PERMISSION_DENIED)
    ensures token.Ok? && OwnerOrAdmin(token.value.claims, id) ==>
      (payload.password.Some? && payload.confirmPassword != payload.password ==> Refused(h, PASSWORD_MISMATCH))
    ensures token.Ok? && OwnerOrAdmin(token.value.claims, id) &&
            (payload.password.None? || payload.confirmPassword == payload.password) ==>
      if db.poolAvailable
      then Served(h, db, Call.UpdateUser(id, RawUpdatedUser(payload.username, payload.email, payload.password)))
      else Refused(h, POOL_TIMEOUT)
  {
    match Authorize(token, id)
    case Err(e) => Handled(Err(e), None)
    case Ok(_) =>
      if ConfirmMismatch(payload) then Handled(Err(PASSWORD_MISMATCH), None)
      else
        var updated := RawUpdatedUser(payload.username, payload.email, payload.password);
        Dispatch(db, Call.UpdateUser(id, updated))
  }

  /** `DELETE /users/<id>`: the owner or an admin. */
  function DeleteUserById<V, D>(id: i32, token: Result<UserToken, Error>, db: Database<V, D>): (h: Handled<V>)
    ensures token.Err? ==> Refused(h, token.error)
    ensures token.Ok? && !OwnerOrAdmin(token.value.claims, id) ==> Refused(h, PERMISSION_DENIED)
    ensures token.Ok? && OwnerOrAdmin(token.value.claims, id) && !db.poolAvailable ==> Refused(h, POOL_TIMEOUT)
    ensures token.Ok? && OwnerOrAdmin(token.value.claims, id) && db.poolAvailable ==> Served(h, db, Call.DeleteUser(id))
  {
    match Authorize(token, id)
    case Err(e) => Handled(Err(e), None)
    case Ok(_) => Dispatch(db, Call.DeleteUser(id))
  }

  /**
   * Requests without an `Authorization` header: `GET /users/42` answers
   * 401 "token not found", and so does every user route that needs a token.
   */
  lemma NoHeaderIsUnauthorized<V, D, J>(db: Database<V, D>, decode: string -> Result<AuthService.JwtClaims, J>)
    ensures CallCtrl(GetUserById(42, ResolveUserToken(None, decode), db).result)
         == Response(401, ErrorJson(Error(401, "token not found")))
    ensures Refused(Me(ResolveUserToken(None, decode), db), TOKEN_NOT_FOUND)
    ensures Refused(GetUsers(ResolveAdminToken(None, decode), db), TOKEN_NOT_FOUND)
  {
  }

  /**
   * `DELETE /users/7`: a valid token of non-admin user 8 is answered 403
   * "permission denied" with no service call; an admin token reaches the
   * deletion of user 7.
   */
  lemma DeleteOtherUser<V, D>(db: Database<V, D>, name: string)
    ensures CallCtrl(DeleteUserById(7, Ok(UserToken(AuthService.JwtClaims(8, name, false))), db).result)
         == Response(403, ErrorJson(Error(403, "permission denied")))
    ensures DeleteUserById(7, Ok(UserToken(AuthService.JwtClaims(8, name, false))), db).reached == None
    ensures db.poolAvailable ==>
      DeleteUserById(7, Ok(UserToken(AuthService.JwtClaims(8, name, true))), db).reached == Some(Call.DeleteUser(7))
  {
  }
}
