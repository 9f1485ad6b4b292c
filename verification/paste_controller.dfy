/**
 * The paste routes of src/controllers/paste.rs, in the same form as the
 * user routes: resolved token and database boundary in, result and the
 * service call made out.
 */
module PasteController {
  import opened Wrappers
  import opened Primitives
  import opened Errors
  import opened Models
  import opened Guard
  import opened Db
  import opened Macros

  const USER_ID_MISMATCH: Error := BadRequest("user_id doesn't match jwt token")
  const IDS_MISMATCH: Error := BadRequest("user_id or paste id doesn't match")

  /** `GET /pastes`: admin tokens only. */
  function GetPastes<V, D>(token: Result<AdminToken, Error>, db: Database<V, D>): (h: Handled<V>)
    ensures token.Err? ==> Refused(h, token.error)
    ensures token.Ok? && !token.value.claims.admin ==> Refused(h, Error(403, "permission denied"))
    ensures token.Ok? && token.value.claims.admin ==>
      if db.poolAvailable then Served(h, db, Call.GetPastes) else Refused(h, POOL_TIMEOUT)
  {
    match AuthorizeAdmin(token)
    case Err(e) => Handled(Err(e), None)
    case Ok(_) => Dispatch(db, Call.GetPastes)
  }

  /**
   * `POST /pastes`: any valid token, but only for a paste of its own user;
   * an admin token gets no exception.
   */
  function CreatePaste<V, D>(payload: NewPaste, user: Result<UserToken, Error>, db: Database<V, D>): (h: Handled<V>)
    ensures user.Err? ==> Refused(h, user.error)
    ensures user.Ok? && user.value.claims.userId != payload.userId ==>
      Refused(h, Error(400, "user_id doesn't match jwt token"))
    ensures user.Ok? && user.value.claims.userId == payload.userId ==>
      if db.poolAvailable then Served(h, db, Call.CreatePaste(payload)) else Refused(h, POOL_TIMEOUT)
  {
    match user
    case Err(e) => Handled(Err(e), None)
    case Ok(u) =>
      if u.claims.userId != payload.userId then Handled(Err(USER_ID_MISMATCH), None)
      else Dispatch(db, Call.CreatePaste(payload))
  }

  /** `GET /pastes/<id>`: open to anyone, no token looked at. */
  function GetPasteById<V, D>(id: i32, db: Database<V, D>): (h: Handled<V>)
    ensures db.poolAvailable ==> Served(h, db, Call.GetPasteById(id))
    ensures !db.poolAvailable ==> Refused(h, POOL_TIMEOUT)
  {
    Dispatch(db, Call.GetPasteById(id))
  }

  /** `GET /users/<user_id>/pastes`: the owner or an admin. */
  function GetPastesByUserId<V, D>(userId: i32, token: Result<UserToken, Error>, db: Database<V, D>): (h: Handled<V>)
    ensures token.Err? ==> Refused(h, token.error)
    ensures token.Ok? && !OwnerOrAdmin(token.value.claims, userId) ==> Refused(h, PERMISSION_DENIED)
    ensures token.Ok? && OwnerOrAdmin(token.value.claims, userId) ==>
      if db.poolAvailable then Served(h, db, Call.GetPastesByUserId(userId)) else Refused(h, POOL_TIMEOUT)
  {
    match Authorize(token, userId)
    case Err(e) => Handled(Err(e), None)
    case Ok(_) => Dispatch(db, Call.GetPastesByUserId(userId))
  }

  /**
   * `PUT /users/<user_id>/pastes/<id>`: permission on the path's user first,
   * then both ids of the payload must be the path's.
   */
  function UpdatePasteById<V, D>(id: i32, userId: i32, payload: Paste, token: Result<UserToken, Error>,
                                 db: Database<V, D>): (h: Handled<V>)
    ensures token.Err? ==> Refused(h, token.error)
    ensures token.Ok? && !OwnerOrAdmin(token.value.claims, userId) ==> Refused(h, PERMISSION_DENIED)
    ensures token.Ok? && OwnerOrAdmin(token.value.claims, userId) && (payload.userId, payload.id) != (userId, id) ==>
      Refused(h, Error(400, "user_id or paste id doesn't match"))
    ensures token.Ok? && OwnerOrAdmin(token.value.claims, userId) && payload == Paste(id, userId, payload.data) ==>
      if db.poolAvailable then Served(h, db, Call.UpdatePaste(payload)) else Refused(h, POOL_TIMEOUT)
  {
    match Authorize(token, userId)
    case Err(e) => Handled(Err(e), None)
    case Ok(_) =>
      if payload.userId != userId || payload.id != id then Handled(Err(IDS_MISMATCH), None)
      else Dispatch(db, Call.UpdatePaste(payload))
  }

  /** `DELETE /users/<user_id>/pastes/<id>`: permission on the path's user only. */
  function DeletePasteById<V, D>(id: i32, userId: i32, token: Result<UserToken, Error>, db: Database<V, D>): (h: Handled<V>)
    ensures token.Err? ==> Refused(h, token.error)
    ensures token.Ok? && !OwnerOrAdmin(token.value.claims, userId) ==> Refused(h, PERMISSION_DENIED)
    ensures token.Ok? && OwnerOrAdmin(token.value.claims, userId) ==>
      if db.poolAvailable then Served(h, db, Call.DeletePaste(id)) else Refused(h, POOL_TIMEOUT)
  {
    match Authorize(token, userId)
    case Err(e) => Handled(Err(e), None)
    case Ok(_) => Dispatch(db, Call.DeletePaste(id))
  }

  /**
   * Deleting a paste never looks at whose paste it is: a token that owns
   * the path's user reaches the deletion of any paste id at all.
   */
  lemma DeleteIgnoresPasteOwner<V, D>(other: i32, userId: i32, name: string, db: Database<V, D>)
    requires db.poolAvailable
    ensures DeletePasteById(other, userId, Ok(UserToken(AuthService.JwtClaims(userId, name, false))), db).reached
         == Some(Call.DeletePaste(other))
  {
  }
}
