# rocket-pastebin: request authorization and validation, in Dafny

This project models the part of the rocket-pastebin web service that decides
whether a request may go ahead and with which error it is turned away. It
covers four pieces:

- the request guards, which turn the optional `Authorization: Bearer <jwt>`
  header into a principal or a classified error;
- the owner-or-admin permission rules (`check_perm`, `has_perm`,
  `match_or_has_roles!`);
- the `{code, msg}` error record;
- the controller pipelines for users, pastes and login, and the records
  that the user services and the password digest build.

The database, the JWT codec, PBKDF2 and Unicode lowercasing are function
parameters:

- A handler receives the already resolved token as a `Result` and a
  `Database` value. That value says whether the pool hands out a
  connection, what each service call returns, and how database errors
  become `Error`s.
- A handler returns its result together with the one service `Call` it
  made, if any. So "a permission failure never reaches the service" and
  "which error wins" are stated exactly.
- PBKDF2 (section 5.2 of RFC 8018) is a keystream
  `(iterations, salt, secret, i) -> byte`. The key of length n is the first
  n bytes of T_1 || T_2 || …, so byte i does not depend on n.
- `str::as_bytes` is concrete UTF-8, proved injective.
- Three results need a hypothesis about PBKDF2: "a wrong password fails",
  "a digest is bound to its username" and "only the stored password logs
  in". The hypothesis is `NoCollision`: the two inputs in question give
  different 32-byte keys. It concerns that one pair only. No function into
  32-byte keys can be collision-free on all inputs, and
  `NoCollisionAttainable` shows that every single pair can be kept apart.
  From there, `AsBytesInjective` and `SaltInjective` carry the proofs.

One consequence of the code as written is proved as `RenameKeepsOldSalt`.
`update_user` re-digests only when a password is given, and the salt
contains the username. So after a rename without a new password, the
stored digest is still salted with the old name. Unless PBKDF2 maps the
old and the new salt to the same key for that password, the unchanged
password then no longer verifies under the new name.

Some behaviour of the program that is easy to expect otherwise:

- The guard never produces "expired token". Every decode failure, expiry
  included, is 401 "invalid token".
- `check_perm` returns the admin guard's own error. A missing or invalid
  token is therefore reported as 401, not 403.
- Login answers with the string "token: <jwt>", not with an object
  `{"token": …}`.
- An empty stored digest verifies no password. ring's `pbkdf2::verify`
  rejects it before deriving anything. A user read back from JSON has such
  an empty digest.

## Model

| member | source | states |
|---|---|---|
| `Errors.BadRequest` | src/helpers/error.rs:29-34 | code 400, message exactly as given |
| `Errors.Unauthorized` | src/helpers/error.rs:36-41 | code 401, message exactly as given |
| `Errors.Forbidden` | src/helpers/error.rs:43-48 | code 403, message exactly as given |
| `Errors.NotFound` | src/helpers/error.rs:50-55 | code 404, message exactly as given |
| `Errors.InternalServerError` | src/helpers/error.rs:57-62 | code 500, message exactly as given |
| `Errors.Display` | src/helpers/error.rs:13-17 | writes exactly the message; `MessageIsVerbatim` states it for every constructor |
| `Errors.Description` | src/helpers/error.rs:20-22 | returns exactly the message; `MessageIsVerbatim` states it for every constructor |
| `Errors.Cause` | src/helpers/error.rs:24-26 | always None: an error never wraps another; `MessageIsVerbatim` states it for every constructor |
| `Errors.MessageIsVerbatim` | src/helpers/error.rs:13-26 | for every constructor, `Display` and `description` give exactly the message, and `cause` is None |
| `Errors.KindsAreDistinguishable` | src/helpers/error.rs:29-62 | errors from different constructors have different codes and are never equal, whatever the messages |
| `Errors.ConstructedCodesAreFailures` | src/helpers/error.rs:29-62 | every constructed error has a 4xx/5xx code, never 200 |
| `Utf8.AsBytesInjective` | src/helpers/digest.rs:15 | strings with equal UTF-8 bytes are equal, so PBKDF2 sees different passwords as different secrets |
| `Digest.DerivedKeyPrefix` | src/helpers/digest.rs:12-16 | a shorter derived key is a prefix of a longer one from the same inputs |
| `Digest.SaltLayout` | src/helpers/digest.rs:33-38 | the salt's length is len(DIGEST_SALT) + len(username), and it is the setting's bytes followed by the username's |
| `Digest.SaltInjective` | src/helpers/digest.rs:35-38 | under one setting, different usernames get different salts |
| `Digest.Extend` | src/helpers/digest.rs:36-37 | `extend` writes the source bytes at the given position and changes nothing else in the buffer |
| `Digest.Salt` | src/helpers/digest.rs:33-39 | the buffer built with exact capacity and two extends is DIGEST_SALT bytes ++ username bytes |
| `Digest.Derive` | src/helpers/digest.rs:12-16 | the buffer is filled with the first `len` bytes PBKDF2 derives from salt and password |
| `Digest.DigestPassword` | src/helpers/digest.rs:9-18 | returns exactly 32 bytes, the key derived with 1000 iterations and `salt(username)` |
| `Digest.VerifyPassword` | src/helpers/digest.rs:20-31 | accepts iff the stored key is non-empty and every stored byte equals the PBKDF2 byte at that position for the same iterations, salt(username) and attempt |
| `Digest.DigestVerifies` | src/helpers/digest.rs:20-31 | verify uses the same PRF, iteration count and salt, so `verify(u, digest(u, p), p)` holds |
| `Digest.EmptyDigestVerifiesNothing` | src/helpers/digest.rs:20-31 | an empty stored digest verifies no attempt, as ring refuses an empty key |
| `Digest.VerifiesOnlyOwnPassword` | src/helpers/digest.rs:55-58 | a digest verifies an attempt iff the attempt is the digested password, given only that PBKDF2 separates these two passwords under this salt |
| `Digest.DigestBoundToUsername` | src/helpers/digest.rs:24-29 | the right password verifies only under the username the digest was salted with, given only that PBKDF2 separates these two salts for this password |
| `UserService.User.VerifyPassword` | src/services/user.rs:37-41 | checks against the user's own name and digest: never accepts with an empty digest, and always accepts the password the digest was made from under this name |
| `UserService.FromModel` | src/services/user.rs:25-35 | copies the five columns; `FromModelCopiesFields` states it and that nothing is lost |
| `UserService.Serialize` | src/services/user.rs:15-23 | the JSON form has every field but the digest; `DigestNeverSerialized` states that it ignores the digest |
| `UserService.Deserialize` | src/services/user.rs:15-23 | the digest takes its empty default, and serialising the result gives back the JSON read |
| `UserService.DeserializedUserVerifiesNothing` | src/services/user.rs:21-22 | a user read from JSON verifies no password, as its digest is empty |
| `UserService.FromModelCopiesFields` | src/services/user.rs:25-35 | `From<ModelUser>` copies id, username, email, admin and digest unchanged and is lossless |
| `UserService.DigestNeverSerialized` | src/services/user.rs:15-23 | the digest is never serialised, and deserialising gives an empty digest |
| `UserService.NewUserRowVerifies` | src/services/user.rs:56-60 | the inserted row has the username verbatim, the email lowercased, and a 32-byte digest that verifies the password |
| `UserService.CreateUser` | src/services/user.rs:55-66 | fails iff the insert fails, with its error; otherwise the inserted row through `From` |
| `UserService.CreatedUserVerifies` | src/services/user.rs:141-147 | if the database stores the row it is given, the created user keeps its name, has the email lowercased and verifies its password |
| `UserService.MergeUpdate` | src/services/user.rs:74-83 | the step-by-step assignments give the merged row: given fields replaced, the email lowercased, the digest recomputed with the post-update name |
| `UserService.MergeKeepsAbsentFields` | src/services/user.rs:74-83 | fields whose update is None are unchanged, id and admin never change, an empty update is the identity |
| `UserService.MergeAppliesGivenFields` | src/services/user.rs:74-82 | the given username replaces the old one, the email becomes the given one lowercased, and a given password verifies under the new username |
| `UserService.RenameKeepsOldSalt` | src/services/user.rs:80-83 | a rename without a password keeps the old digest, which no longer verifies the unchanged password, given only that PBKDF2 separates the old and new salt for it |
| `UserService.UpdateUser` | src/services/user.rs:68-91 | an unknown id fails with the lookup error before any write; otherwise writes exactly the merged username, email and digest for `id` and converts the result |
| `UsersService.CreateUser` | src/services/users.rs:13-23 | inserts the username verbatim, the email lowercased and `digest_password(username, password)`, and returns the insert's result |
| `UsersService.UpdateUser` | src/services/users.rs:25-47 | an unknown id fails before the write; None fields are kept, the email is lowercased, the digest is recomputed from the post-update username only when a password is given |
| `AuthService.ClaimsOf` | src/services/auth.rs:15-19 | the claims carry the user's id, username and admin flag |
| `AuthService.Login` | src/services/auth.rs:14-23 | the result is exactly the encoder's result on those claims, errors included |
| `Guard.ResolveUserToken` | src/helpers/guard.rs:13-26 | no header is 401 "token not found", a decode failure 401 "invalid token", otherwise a user token holding the decoded claims |
| `Guard.ResolveAdminToken` | src/helpers/guard.rs:13-26 | no header is 401 "token not found", a decode failure 401 "invalid token", otherwise an admin token holding the decoded claims |
| `Guard.TrimLeftMatches` | src/helpers/guard.rs:19 | the result is a suffix of the header that no longer starts with "Bearer " |
| `Guard.TrimStripsRepeats` | src/helpers/guard.rs:19 | every leading repetition of the prefix is stripped, and the rest is treated as if it stood alone |
| `Guard.TrimRemovesRepeats` | src/helpers/guard.rs:19 | what the trim removes is a whole number of copies of the prefix |
| `Guard.BearerCredential` | src/helpers/guard.rs:19 | "Bearer " + token (or several prefixes) hands the decoder exactly the token |
| `Guard.GetClaims` | src/helpers/guard.rs:13-26 | no header gives 401 "token not found"; any decode failure gives 401 "invalid token"; otherwise the decoded claims; a failure's status equals its code |
| `Guard.DecodeFailuresAreUniform` | src/helpers/guard.rs:19-22 | two decoders failing for different reasons give the same outcome, 401 "invalid token" |
| `Guard.NormalUserFromRequest` | src/helpers/guard.rs:37-46 | succeeds iff the claims decode, with `user_id == claims.user_id`; otherwise the header's error |
| `Guard.AdminUserFromRequest` | src/helpers/guard.rs:48-65 | succeeds iff the claims decode with `admin` set, carrying user_id and username verbatim; valid non-admin claims give 403 "permission denied" |
| `Guard.MissingHeaderIsUnauthorized` | src/helpers/guard.rs:15-17 | with no header, both guards fail with 401 "token not found" |
| `Guard.CheckPerm` | src/helpers/guard.rs:67-79 | Ok when the user resolved to the target id, whatever the admin outcome; otherwise Ok iff the admin resolved, else the admin error unchanged |
| `Guard.CheckPermOnRequest` | src/helpers/guard.rs:73-78 | on one request, a missing or invalid token is 401 with its own message, never 403; decoded claims pass iff owner or admin, else 403 |
| `Guard.UserToken.HasPerm` | src/helpers/guard.rs:75-78 | Ok iff own id or the token's admin claim; otherwise 403 "permission denied" |
| `Guard.AdminToken.HasPerm` | src/helpers/guard.rs:54-60 | Ok iff the admin claim; otherwise 403 "permission denied" |
| `Guard.Authorize` | src/controllers/user.rs:68 | a token error passes unchanged; a token passes iff owner or admin, else 403 |
| `Guard.AuthorizeAdmin` | src/controllers/user.rs:28 | a token error passes unchanged; a token passes iff admin, else 403 |
| `Guard.UserTokenAgreesWithCheckPerm` | src/helpers/guard.rs:67-79 | `token.has_perm(id)` decides exactly as `check_perm` over the two guards of the same request, errors included |
| `Guard.AdminTokenAgreesWithAdminUser` | src/helpers/guard.rs:53-63 | `UserToken<Admin>::has_perm()` succeeds and fails exactly as the `AdminUser` guard |
| `Guard.LoginTokenResolves` | src/services/auth.rs:14-22 | a login token decoded back to its claims resolves to the user's id, and passes the admin guard iff the user is an admin (else 403) |
| `Db.GetConn` | src/helpers/db.rs:14-18 | a connection iff the pool gives one, else 500 "database connection pool timeout" |
| `Macros.CallCtrl` | src/controllers/macros.rs:6-13 | Ok is status 200 with the value as body; an error is sent with status equal to its code and itself as body |
| `Macros.CallCtrlFaithful` | src/controllers/macros.rs:8-11 | the response gives back the result without loss |
| `Macros.CallServ` | src/controllers/macros.rs:15-19 | a service value passes unchanged; a database error goes through `Error::from` |
| `Macros.Dispatch` | src/controllers/user.rs:30-31 | the service is called only after a connection was had; otherwise 500 with no call |
| `Macros.CountHeld` | src/controllers/macros.rs:24 | the count of held roles is zero iff no listed role is held |
| `Macros.MatchOrHasRoles` | src/controllers/macros.rs:21-30 | a token error passes unchanged; Ok iff the token matches the user id or holds a listed role; otherwise 403 "permission denied" |
| `Macros.NoRolesIsOwnership` | src/controllers/macros.rs:24 | with an empty role list the rule is the ownership check |
| `Macros.RoleOrderIrrelevant` | src/controllers/macros.rs:24 | the outcome depends only on which roles are listed, not their order or duplicates |
| `UserController.Me` | src/controllers/user.rs:16-22 | a token error is returned with no call; otherwise fetches the user whose id is the token's |
| `UserController.GetUsers` | src/controllers/user.rs:24-33 | admin token only: errors unchanged, a non-admin gets 403, no service call on failure |
| `UserController.CreateUser` | src/controllers/user.rs:44-61 | no token; password != confirm gives 400 "password mismatch" before any call; otherwise creates the user with the form's fields |
| `UserController.GetUserById` | src/controllers/user.rs:63-73 | token errors unchanged, non-owner non-admin 403, no call on failure; otherwise fetches user `id` |
| `UserController.UpdateUserById` | src/controllers/user.rs:83-115 | permission first; then a password present without an equal confirm is 400 "password mismatch" (no password never mismatches); otherwise updates with the optional fields as given |
| `UserController.DeleteUserById` | src/controllers/user.rs:117-127 | token errors unchanged, non-owner non-admin 403, no call on failure; otherwise deletes user `id` |
| `UserController.NoHeaderIsUnauthorized` | src/controllers/user.rs:63-73 | `GET /users/42` without a header answers 401 "token not found", as do `me` and `get_users` |
| `UserController.DeleteOtherUser` | src/controllers/user.rs:117-127 | `DELETE /users/7` with a non-admin token of user 8 answers 403 with no call; an admin token reaches the deletion |
| `PasteController.GetPastes` | src/controllers/paste.rs:16-25 | admin token only: errors unchanged, a non-admin gets 403, no call on failure |
| `PasteController.CreatePaste` | src/controllers/paste.rs:27-42 | token errors unchanged; a payload user_id other than the token's is 400 "user_id doesn't match jwt token", even for an admin |
| `PasteController.GetPasteById` | src/controllers/paste.rs:44-49 | no token needed; fetches paste `id` |
| `PasteController.GetPastesByUserId` | src/controllers/paste.rs:51-63 | gated by owner-or-admin on `user_id`; no call on failure |
| `PasteController.UpdatePasteById` | src/controllers/paste.rs:65-83 | permission on the path user first; then either payload id differing from the path is 400 "user_id or paste id doesn't match" |
| `PasteController.DeletePasteById` | src/controllers/paste.rs:85-98 | permission on the path user only; deletes paste `id` |
| `PasteController.DeleteIgnoresPasteOwner` | src/controllers/paste.rs:91-95 | whether paste `id` belongs to the path user is never checked: the owner of the path user reaches the deletion of any paste id |
| `AuthController.LookUp` | src/controllers/auth.rs:27-34 | a user iff the pool gives a connection and the name is found, and then that user; its error is never a 404, as not-found becomes the credentials error |
| `AuthController.Login` | src/controllers/auth.rs:20-47 | NotFound from the lookup and a failed password check both give 400 "wrong username or password"; other lookup errors pass unchanged; an encoder failure is 500 "fail to generate jwt token"; success is "token: " + token |
| `AuthController.UnknownUserLikeWrongPassword` | src/controllers/auth.rs:29-37 | an unknown username and a wrong password give the same result and the same 400 response |
| `AuthController.LoginNeedsStoredPassword` | src/controllers/auth.rs:35-37 | a login succeeds only with the password the user's digest was made from, given only that PBKDF2 separates the attempt from that password under the user's salt |
| `AuthController.LoginSucceeds` | src/controllers/auth.rs:41-45 | the right password with a working pool and encoder answers 200 with "token: " + the encoded claims |

## Left out

- Token expiry: the `exp` check (section 4.1.4 of RFC 7519) happens inside the JWT library's default validation. The guard maps its failure to "invalid token", like any other decode failure. No "expired token" message and no leeway setting exist in the guard, so neither is modelled.
- JWT encoding, decoding and signature checking (RFC 7519): an uninterpreted encoder and decoder. Round trips are stated as lemma hypotheses.
- PBKDF2 / HMAC-SHA256 internals: an uninterpreted keystream. ring's `pbkdf2::verify` is modelled as "reject an empty key, otherwise derive to the stored length and compare". Its constant-time comparison is not modelled. ring is not part of this model.
- Reading DIGEST_SALT from the environment: the setting is a parameter.
- Unicode `to_lowercase`: a parameter.
- Diesel queries: every query of the user services, and all of src/services/pastes.rs, are calls through function parameters. The database default `admin = false` on insert is not modelled.
- `Error::from` for diesel errors, including the "duplicate …" constraint-name parsing: a parameter. Its `From` impl is not part of this model.
- The r2d2 pool: only whether it hands out a connection.
- `UserToken<User>`, `UserToken<Admin>`, `has_perm`, `match_user_id` and `has_role` are not defined in src/helpers/guard.rs. They are modelled by the rules of `check_perm` and `AdminUser`, and these are proved to agree with the guards. `has_role` is a parameter.
- src/controllers/macros.rs defines only the one-argument `call_ctrl!`, but the controllers call a two-argument form. That form is modelled as the one-argument form applied to the result of the handler's closure.
- `Custom::from(err)` turns an `Error` into a response. Its `From` impl is not part of this model. The response is taken to have status equal to the error's code and the error as body.
- Rocket's own `Result<T, E>` request guard is part of Rocket, not of this repository. It is modelled as the failure's error without its status.
- Rocket routing, form decoding and JSON rendering, src/main.rs (file-based paste upload), src/helpers/env.rs and the test fixtures are not part of this model.
- Integer widths: ids are `i32` and codes are `u16`. The code only compares them, so no wrap-around arises.
- `MergeUpdate` and `UpdateUser` treat the fetched row as a record value reassigned field by field. No aliasing is involved.
