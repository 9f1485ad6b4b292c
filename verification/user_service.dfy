/**
 * src/services/user.rs: the API view of a user, password checking, and the
 * records `create_user` inserts and `update_user` writes. The queries
 * themselves are function parameters: `insert`, `find` and `write` stand for
 * the diesel calls and return either a row or a database error `D`.
 */
module UserService {
  import opened Wrappers
  import opened Primitives
  import opened Models
  import Digest
  import Utf8

  /**
   * `services::user::User`. The digest is kept for password checks but is
   * skipped by serde in both directions.
   */
  datatype User = User(id: i32, username: string, email: string, admin: bool, passwordDigest: bytes)
  {
    /** `User::verify_password`: check a password against this user's name and digest. */
    function VerifyPassword(env: Digest.DigestEnv, attempted: string): (ok: bool)
      ensures ok ==> |passwordDigest| > 0
      ensures passwordDigest == Digest.DigestOf(env, username, attempted) ==> ok
    {
      Digest.DigestVerifies(env, username, attempted);
      Digest.VerifyPassword(env, username, passwordDigest, attempted)
    }
  }

  /** The JSON form of a `User`: every field but the digest. */
  datatype UserJson = UserJson(id: i32, username: string, email: string, admin: bool)

  /** `impl From<ModelUser> for User`. */
  function FromModel(m: ModelUser): User
  {
    User(m.id, m.username, m.email, m.admin, m.passwordDigest)
  }

  /** `From` copies every column unchanged and loses nothing. */
  lemma FromModelCopiesFields(m: ModelUser, m': ModelUser)
    ensures FromModel(m).id == m.id && FromModel(m).username == m.username && FromModel(m).email == m.email
    ensures FromModel(m).admin == m.admin && FromModel(m).passwordDigest == m.passwordDigest
    ensures FromModel(m) == FromModel(m') ==> m == m'
  {
  }

  /** Serialisation with `#[serde(skip_serializing)]` on the digest. */
  function Serialize(u: User): UserJson
  {
    UserJson(u.id, u.username, u.email, u.admin)
  }

  /** Deserialisation with `#[serde(skip_deserializing)]`: the digest takes its default, empty. */
  function Deserialize(j: UserJson): (u: User)
    ensures u.passwordDigest == []
    ensures Serialize(u) == j
  {
    User(j.id, j.username, j.email, j.admin, [])
  }

  /** A user read from JSON carries no digest, so no password verifies for it. */
  lemma DeserializedUserVerifiesNothing(env: Digest.DigestEnv, j: UserJson, attempted: string)
    ensures !Deserialize(j).VerifyPassword(env, attempted)
  {
  }

  /**
   * The digest never reaches the wire: users that differ only in their digest
   * serialise identically, and a round trip restores everything but the digest.
   */
  lemma DigestNeverSerialized(u: User, digest: bytes)
    ensures Serialize(u.(passwordDigest := digest)) == Serialize(u)
    ensures Deserialize(Serialize(u)) == u.(passwordDigest := [])
    ensures Serialize(Deserialize(Serialize(u))) == Serialize(u)
  {
  }

  /** Maps a query result through `From`, as `.and_then(|user| Ok(user.into()))` does. */
  function IntoUser<D>(res: Result<ModelUser, D>): Result<User, D>
  {
    match res
    case Ok(m) => Ok(FromModel(m))
    case Err(e) => Err(e)
  }

  /** The row `create_user` inserts: username verbatim, email lowercased, fresh digest. */
  function NewUserRow(env: Digest.DigestEnv, lower: string -> string, u: RawUser): ModelNewUser
  {
    ModelNewUser(u.username, lower(u.email), Digest.DigestOf(env, u.username, u.password))
  }

  /** The inserted row keeps the name, lowercases the email, and its digest checks the password. */
  lemma NewUserRowVerifies(env: Digest.DigestEnv, lower: string -> string, u: RawUser)
    ensures NewUserRow(env, lower, u).username == u.username
    ensures NewUserRow(env, lower, u).email == lower(u.email)
    ensures |NewUserRow(env, lower, u).passwordDigest| == Digest.DIGEST_CREDENTIAL_LEN
    ensures Digest.VerifyPassword(env, u.username, NewUserRow(env, lower, u).passwordDigest, u.password)
  {
    Digest.DigestVerifies(env, u.username, u.password);
  }

  /** `create_user`: insert the row and convert what the database returns. */
  function CreateUser<D>(env: Digest.DigestEnv, lower: string -> string, u: RawUser,
                         insert: ModelNewUser -> Result<ModelUser, D>): (r: Result<User, D>)
    ensures r.Err? <==> insert(NewUserRow(env, lower, u)).Err?
    ensures r.Err? ==> r.error == insert(NewUserRow(env, lower, u)).error
    ensures r.Ok? ==> r.value == FromModel(insert(NewUserRow(env, lower, u)).value)
  {
    IntoUser(insert(NewUserRow(env, lower, u)))
  }

  /** The database stored `ins` as `row`. */
  predicate Stores(row: ModelUser, ins: ModelNewUser)
  {
    row.username == ins.username && row.email == ins.email && row.passwordDigest == ins.passwordDigest
  }

  /**
   * When the database stores what it is given, the created user has the
   * name as given, the email lowercased, and verifies its password.
   */
  lemma CreatedUserVerifies<D>(env: Digest.DigestEnv, lower: string -> string, u: RawUser,
                               insert: ModelNewUser -> Result<ModelUser, D>)
    requires insert(NewUserRow(env, lower, u)).Ok?
    requires Stores(insert(NewUserRow(env, lower, u)).value, NewUserRow(env, lower, u))
    ensures CreateUser(env, lower, u, insert).Ok?
    ensures CreateUser(env, lower, u, insert).value.username == u.username
    ensures CreateUser(env, lower, u, insert).value.email == lower(u.email)
    ensures CreateUser(env, lower, u, insert).value.VerifyPassword(env, u.password)
  {
    NewUserRowVerifies(env, lower, u);
  }

  /**
   * The row after an update: each given field replaced (the email
   * lowercased), each absent one kept; a given password is digested with the
   * username as it is after the update.
   */
  function Merged(env: Digest.DigestEnv, lower: string -> string, row: ModelUser, upd: RawUpdatedUser): ModelUser
  {
    var name := if upd.username.Some? then upd.username.value else row.username;
    ModelUser(row.id, name,
              if upd.email.Some? then lower(upd.email.value) else row.email,
              if upd.password.Some? then Digest.DigestOf(env, name, upd.password.value) else row.passwordDigest,
              row.admin)
  }

  /** The field-by-field assignments of `update_user` on the fetched row. */
  method MergeUpdate(env: Digest.DigestEnv, lower: string -> string, row: ModelUser, upd: RawUpdatedUser)
    returns (user: ModelUser)
    ensures user == Merged(env, lower, row, upd)
  {
    user := row;
    if upd.username.Some? {
      user := user.(username := upd.username.value);
    }
    if upd.email.Some? {
      user := user.(email := lower(upd.email.value));
    }
    if upd.password.Some? {
      var digest := Digest.DigestPassword(env, user.username, upd.password.value);
      user := user.(passwordDigest := digest);
    }
  }

  /** Fields the update leaves out are unchanged; id and admin are never touched. */
  lemma MergeKeepsAbsentFields(env: Digest.DigestEnv, lower: string -> string, row: ModelUser, upd: RawUpdatedUser)
    ensures Merged(env, lower, row, upd).id == row.id
    ensures Merged(env, lower, row, upd).admin == row.admin
    ensures upd.username.None? ==> Merged(env, lower, row, upd).username == row.username
    ensures upd.email.None? ==> Merged(env, lower, row, upd).email == row.email
    ensures upd.password.None? ==> Merged(env, lower, row, upd).passwordDigest == row.passwordDigest
    ensures upd == RawUpdatedUser(None, None, None) ==> Merged(env, lower, row, upd) == row
  {
  }

  /**
   * Given fields are replaced (the email by its lowercase), and a given
   * password verifies against the new row under its new username.
   */
  lemma MergeAppliesGivenFields(env: Digest.DigestEnv, lower: string -> string, row: ModelUser, upd: RawUpdatedUser)
    ensures upd.username.Some? ==> Merged(env, lower, row, upd).username == upd.username.value
    ensures upd.email.Some? ==> Merged(env, lower, row, upd).email == lower(upd.email.value)
    ensures upd.password.Some? ==>
      Digest.VerifyPassword(env, Merged(env, lower, row, upd).username,
                            Merged(env, lower, row, upd).passwordDigest, upd.password.value)
  {
    if upd.password.Some? {
      Digest.DigestVerifies(env, Merged(env, lower, row, upd).username, upd.password.value);
    }
  }

  /**
   * A rename without a new password keeps the digest salted with the old
   * name. Unless PBKDF2 maps the old and the new salt to the same key for
   * this password, the unchanged password then no longer verifies under the
   * new name.
   */
  lemma RenameKeepsOldSalt(env: Digest.DigestEnv, lower: string -> string, row: ModelUser,
                           upd: RawUpdatedUser, password: string)
    requires row.passwordDigest == Digest.DigestOf(env, row.username, password)
    requires upd.username.Some? && upd.username.value != row.username && upd.password.None?
    requires Digest.NoCollision(env.pbkdf2, Digest.PBKDF2_ITER, Digest.SaltOf(env.digestSalt, upd.username.value),
                                Utf8.AsBytes(password), Digest.SaltOf(env.digestSalt, row.username), Utf8.AsBytes(password))
    ensures Merged(env, lower, row, upd).passwordDigest == row.passwordDigest
    ensures !Digest.VerifyPassword(env, Merged(env, lower, row, upd).username,
                                   Merged(env, lower, row, upd).passwordDigest, password)
  {
    Digest.DigestBoundToUsername(env, row.username, upd.username.value, password);
  }

  /**
   * `update_user`: fetch the row (failing before any write if that fails),
   * merge, write the three columns back and convert the written row.
   * `written` is the write issued, if any.
   */
  method UpdateUser<D>(env: Digest.DigestEnv, lower: string -> string, id: i32, upd: RawUpdatedUser,
                       find: i32 -> Result<ModelUser, D>, write: UserWrite -> Result<ModelUser, D>)
    returns (r: Result<User, D>, written: Option<UserWrite>)
    ensures find(id).Err? ==> written == None && r == Err(find(id).error)
    ensures find(id).Ok? ==>
      var m := Merged(env, lower, find(id).value, upd);
      && written == Some(UserWrite(id, m.username, m.email, m.passwordDigest))
      && r == IntoUser(write(written.value))
  {
    var fetched := find(id);
    if fetched.Err? {
      return Err(fetched.error), None;
    }
    var user := MergeUpdate(env, lower, fetched.value, upd);
    var w := UserWrite(id, user.username, user.email, user.passwordDigest);
    written := Some(w);
    r := IntoUser(write(w));
  }
}
