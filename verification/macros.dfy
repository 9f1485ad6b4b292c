/**
 * The controller macros of src/controllers/macros.rs: turning a result into
 * a response, converting service errors, and the owner-or-role rule.
 */
module Macros {
  import opened Wrappers
  import opened Primitives
  import opened Errors
  import opened Guard
  import opened Db

  /** A JSON response body: the result value, or the `{code, msg}` error. */
  datatype Body<V> = Json(value: V) | ErrorJson(error: Error)

  datatype Response<V> = Response(status: u16, body: Body<V>)

  /** `call_ctrl!`: Ok is 200 with the value as body; an error is sent with its own code as status. */
  function CallCtrl<V>(result: Result<V, Error>): (resp: Response<V>)
    ensures result.Ok? ==> resp == Response(200, Json(result.value))
    ensures result.Err? ==> resp.status == result.error.code && resp.body == ErrorJson(result.error)
  {
    match result
    case Ok(v) => Response(STATUS_OK, Json(v))
    case Err(e) => Response(e.code, ErrorJson(e))
  }

  /** What a client reads back from a response. */
  function ResultOf<V>(resp: Response<V>): Result<V, Error>
  {
    match resp.body
    case Json(v) => Ok(v)
    case ErrorJson(e) => Err(e)
  }

  /** A response carries its result without loss. */
  lemma CallCtrlFaithful<V>(result: Result<V, Error>)
    ensures ResultOf(CallCtrl(result)) == result
  {
  }

  /** `call_serv!`: a service value passes unchanged; a database error goes through `Error::from`. */
  function CallServ<T, D>(res: Result<T, D>, fromDb: D -> Error): (r: Result<T, Error>)
    ensures res.Ok? ==> r == Ok(res.value)
    ensures res.Err? ==> r == Err(fromDb(res.error))
  {
    match res
    case Ok(v) => Ok(v)
    case Err(e) => Err(fromDb(e))
  }

  /**
   * The common tail of every handler,
   * `get_conn!(db_pool).and_then(|conn| call_serv!(service(.., &conn)))`:
   * the call is made only when a connection was had.
   */
  function Dispatch<V, D>(db: Database<V, D>, call: Call): (h: Handled<V>)
    ensures !db.poolAvailable ==> h == Handled(Err(POOL_TIMEOUT), None)
    ensures db.poolAvailable ==> h == Handled(CallServ(db.serve(call), db.fromDb), Some(call))
  {
    match GetConn(db.poolAvailable)
    case Err(e) => Handled(Err(e), None)
    case Ok(_) => Handled(CallServ(db.serve(call), db.fromDb), Some(call))
  }

  /** `roles.filter(|role| token.has_role(role)).count()`. */
  function CountHeld<R>(t: UserToken, roles: seq<R>, hasRole: (UserToken, R) -> bool): (n: nat)
    ensures n <= |roles|
    ensures n == 0 <==> forall i :: 0 <= i < |roles| ==> !hasRole(t, roles[i])
  {
    if roles == [] then 0
    else (if hasRole(t, roles[0]) then 1 else 0) + CountHeld(t, roles[1..], hasRole)
  }

  /**
   * `match_or_has_roles!`: a token error is returned unchanged; a token passes
   * iff it matches `userId` or holds one of `roles`, and is otherwise 403.
   */
  function MatchOrHasRoles<R>(token: Result<UserToken, Error>, userId: i32, roles: seq<R>,
                              hasRole: (UserToken, R) -> bool): (r: Result<(), Error>)
    ensures token.Err? ==> r == Err(token.error)
    ensures token.Ok? ==>
      (r.Ok? <==> token.value.claims.userId == userId || exists i :: 0 <= i < |roles| && hasRole(token.value, roles[i]))
    ensures token.Ok? && r.Err? ==> r.error == Error(403, "permission denied")
  {
    match token
    case Err(e) => Err(e)
    case Ok(t) =>
      if !t.MatchUserId(userId) && CountHeld(t, roles, hasRole) == 0 then Err(PERMISSION_DENIED)
      else Ok(())
  }

  /** With no roles listed the rule is the ownership check alone. */
  lemma NoRolesIsOwnership<R>(token: Result<UserToken, Error>, userId: i32, hasRole: (UserToken, R) -> bool)
    ensures token.Ok? ==> (MatchOrHasRoles(token, userId, [], hasRole).Ok? <==> token.value.claims.userId == userId)
  {
  }

  /** Only which roles are listed matters, not their order or repetitions. */
  lemma RoleOrderIrrelevant<R>(token: Result<UserToken, Error>, userId: i32, a: seq<R>, b: seq<R>,
                                   hasRole: (UserToken, R) -> bool)
    requires forall x :: x in a <==> x in b
    ensures MatchOrHasRoles(token, userId, a, hasRole) == MatchOrHasRoles(token, userId, b, hasRole)
  {
    if token.Ok? {
      var t := token.value;
      if i :| 0 <= i < |a| && hasRole(t, a[i]) {
        assert a[i] in b;
        var j :| 0 <= j < |b| && b[j] == a[i];
        assert hasRole(t, b[j]);
      }
      if j :| 0 <= j < |b| && hasRole(t, b[j]) {
        assert b[j] in a;
        var i :| 0 <= i < |a| && a[i] == b[j];
        assert hasRole(t, a[i]);
      }
    }
  }
}
