/**
 * The database boundary the controllers see: `get_conn!` of
 * src/helpers/db.rs, and the service operations they call, as values.
 */
module Db {
  import opened Wrappers
  import opened Primitives
  import opened Errors
  import opened Models

  const POOL_TIMEOUT: Error := InternalServerError("database connection pool timeout")

  /** `get_conn!`: a connection from the pool, or 500 when none can be had. */
  function GetConn(poolAvailable: bool): (r: Result<(), Error>)
    ensures r.Ok? <==> poolAvailable
    ensures r.Err? ==> r.error == Error(500, "database connection pool timeout")
  {
    if poolAvailable then Ok(()) else Err(POOL_TIMEOUT)
  }

  /** A call of a user or paste service, with its arguments. */
  datatype Call =
    | GetUserById(id: i32)
    | GetUserList
    | CreateUser(user: RawUser)
    | UpdateUser(id: i32, update: RawUpdatedUser)
    | DeleteUser(id: i32)
    | GetPastes
    | CreatePaste(newPaste: NewPaste)
    | GetPasteById(id: i32)
    | GetPastesByUserId(userId: i32)
    | UpdatePaste(paste: Paste)
    | DeletePaste(id: i32)

  /**
   * What a handler can reach: whether the pool hands out a connection, the
   * result each service call has (a value `V` or a database error `D`), and
   * `Error::from` for database errors.
   */
  datatype Database<V, !D> = Database(poolAvailable: bool, serve: Call -> Result<V, D>, fromDb: D -> Error)

  /** A handler's result, and the service call it made, if it made one. */
  datatype Handled<V> = Handled(result: Result<V, Error>, reached: Option<Call>)

  /** The handler stopped with `e` and called no service. */
  ghost predicate Refused<V>(h: Handled<V>, e: Error)
  {
    h == Handled(Err(e), None)
  }

  /** The handler made `call` and returned its result, database errors converted. */
  ghost predicate Served<V, D>(h: Handled<V>, db: Database<V, D>, call: Call)
  {
    && h.reached == Some(call)
    && h.result == (match db.serve(call) case Ok(v) => Ok(v) case Err(e) => Err(db.fromDb(e)))
  }
}
