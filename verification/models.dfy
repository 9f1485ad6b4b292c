/**
 * The plain records of the files under src/models. src/models/user.rs and
 * src/models/users.rs declare the same row shapes; they are declared once here.
 */
module Models {
  import opened Wrappers
  import opened Primitives

  /** A row of the users table. */
  datatype ModelUser = ModelUser(id: i32, username: string, email: string, passwordDigest: bytes, admin: bool)

  /** The columns written when a user is inserted. */
  datatype ModelNewUser = ModelNewUser(username: string, email: string, passwordDigest: bytes)

  /** A row of the pastes table. */
  datatype Paste = Paste(id: i32, userId: i32, data: string)

  /** The columns written when a paste is inserted. */
  datatype NewPaste = NewPaste(userId: i32, data: string)

  /**
   * A user to create, with the plaintext password (`RawUser`, and
   * `services::user::NewUser` of the same shape).
   */
  datatype RawUser = RawUser(username: string, email: string, password: string)

  /**
   * The optional new values of an update (`RawUpdatedUser`, and
   * `services::user::UpdatedUser` of the same shape).
   */
  datatype RawUpdatedUser = RawUpdatedUser(username: Option<string>, email: Option<string>, password: Option<string>)

  /** The row values `diesel::update(..).set(..)` writes for user `id`. */
  datatype UserWrite = UserWrite(id: i32, username: string, email: string, passwordDigest: bytes)
}
