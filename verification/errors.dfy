/**
 * The boundary error record `{code, msg}` of src/helpers/error.rs and the
 * five constructors that fix its code to an HTTP status.
 */
module Errors {
  import opened Wrappers
  import opened Primitives

  const STATUS_OK: u16 := 200
  const STATUS_BAD_REQUEST: u16 := 400
  const STATUS_UNAUTHORIZED: u16 := 401
  const STATUS_FORBIDDEN: u16 := 403
  const STATUS_NOT_FOUND: u16 := 404
  const STATUS_INTERNAL_SERVER_ERROR: u16 := 500

  datatype Error = Error(code: u16, msg: string)

  function BadRequest(msg: string): (e: Error)
    ensures e.code == 400 && e.msg == msg
  {
    Error(STATUS_BAD_REQUEST, msg)
  }

  function Unauthorized(msg: string): (e: Error)
    ensures e.code == 401 && e.msg == msg
  {
    Error(STATUS_UNAUTHORIZED, msg)
  }

  function Forbidden(msg: string): (e: Error)
    ensures e.code == 403 && e.msg == msg
  {
    Error(STATUS_FORBIDDEN, msg)
  }

  function NotFound(msg: string): (e: Error)
    ensures e.code == 404 && e.msg == msg
  {
    Error(STATUS_NOT_FOUND, msg)
  }

  function InternalServerError(msg: string): (e: Error)
    ensures e.code == 500 && e.msg == msg
  {
    Error(STATUS_INTERNAL_SERVER_ERROR, msg)
  }

  /** `fmt::Display`: the text written for an error. */
  function Display(e: Error): string
  {
    e.msg
  }

  /** `error::Error::description`. */
  function Description(e: Error): string
  {
    e.msg
  }

  /** `error::Error::cause`: an `Error` never wraps another one. */
  function Cause(e: Error): Option<Error>
  {
    None
  }

  /** The five error kinds, as a value, so that lemmas can range over them. */
  datatype Kind = BadRequestKind | UnauthorizedKind | ForbiddenKind | NotFoundKind | InternalKind

  function Make(k: Kind, msg: string): Error
  {
    match k
    case BadRequestKind => BadRequest(msg)
    case UnauthorizedKind => Unauthorized(msg)
    case ForbiddenKind => Forbidden(msg)
    case NotFoundKind => NotFound(msg)
    case InternalKind => InternalServerError(msg)
  }

  /**
   * Whichever constructor built an error, its text (Display and description)
   * is exactly the message it was given, and it has no cause.
   */
  lemma MessageIsVerbatim(k: Kind, msg: string)
    ensures Display(Make(k, msg)) == msg
    ensures Description(Make(k, msg)) == msg
    ensures Cause(Make(k, msg)) == None
  {
  }

  /**
   * Errors built by two different constructors never coincide, whatever
   * their messages: the code alone tells the kind apart.
   */
  lemma KindsAreDistinguishable(k1: Kind, m1: string, k2: Kind, m2: string)
    requires k1 != k2
    ensures Make(k1, m1).code != Make(k2, m2).code
    ensures Make(k1, m1) != Make(k2, m2)
  {
  }

  /** Every error any constructor builds carries a 4xx or 5xx code, never 200. */
  lemma ConstructedCodesAreFailures(k: Kind, msg: string)
    ensures 400 <= Make(k, msg).code < 600
    ensures Make(k, msg).code != STATUS_OK
  {
  }
}
