/**
 * src/services/users.rs, the older service over the same users table. It
 * builds the same rows as src/services/user.rs but returns the table row
 * itself rather than the API view.
 */
module UsersService {
  import opened Wrappers
  import opened Primitives
  import opened Models
  import Digest
  import UserService

  /** `create_user`: insert the row (name verbatim, email lowercased, fresh digest). */
  function CreateUser<D>(env: Digest.DigestEnv, lower: string -> string, u: RawUser,
                         insert: ModelNewUser -> Result<ModelUser, D>): (r: Result<ModelUser, D>)
    ensures r == insert(ModelNewUser(u.username, lower(u.email), Digest.DigestOf(env, u.username, u.password)))
  {
    insert(UserService.NewUserRow(env, lower, u))
  }

  /** The older `update_user`: the same fetch, merge and write, returning the written row. */
  method UpdateUser<D>(env: Digest.DigestEnv, lower: string -> string, id: i32, upd: RawUpdatedUser,
                       find: i32 -> Result<ModelUser, D>, write: UserWrite -> Result<ModelUser, D>)
    returns (r: Result<ModelUser, D>, written: Option<UserWrite>)
    ensures find(id).Err? ==> written == None && r == Err(find(id).error)
    ensures find(id).Ok? ==>
      && written.Some? && written.value.id == id
      && written.value.username == (if upd.username.Some? then upd.username.value else find(id).value.username)
      && written.value.email == (if upd.email.Some? then lower(upd.email.value) else find(id).value.email)
      && written.value.passwordDigest ==
           (if upd.password.Some? then Digest.DigestOf(env, written.value.username, upd.password.value)
            else find(id).value.passwordDigest)
      && r == write(written.value)
  {
    var fetched := find(id);
    if fetched.Err? {
      return Err(fetched.error), None;
    }
    var user := UserService.MergeUpdate(env, lower, fetched.value, upd);
    var w := UserWrite(id, user.username, user.email, user.passwordDigest);
    written := Some(w);
    r := write(w);
  }
}
