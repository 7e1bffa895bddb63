# Authentication service: session and password-reset lifecycle

A Dafny model of the core of a user-authentication backend: the service layer
that registers users, logs them in, honours and revokes the single stored
refresh token, updates user records under an admin-or-self rule, and runs the
password-reset flow; and the HTTP controller that maps each service outcome to
a status, an error code and a cookie action.

- `base.dfy` (module `Base`): identifiers, `Option`, and `Env`, the library
  calls the service makes (`jwt.sign`, `jwt.verify`, password hashing and
  comparison, SHA-256) as function values with the two signing secrets and the
  schema's default role. `JwtSound` and `PasswordCheckSound` state what those
  libraries promise; they appear only as hypotheses (of lemmas, and
  as antecedents of two ensures) and are never assumed outright. `Earliest`
  picks the record a `findOne` returns when several match. The document store
  does not promise one, so the model fixes the least id as its choice. The
  choice matters only when emails or reset digests repeat; `Db.Valid` rules out
  the first, and random reset tokens make the second unlikely.
- `auth_spec.dfy` (module `AuthSpec`): the user record, the collection as a
  value (`Db`: records by id plus the next id to hand out), the error tags, and
  every service operation as a pure transition returning its outcome and the
  collection it leaves. `Db.Valid` is the collection invariant (ids already
  handed out, unique emails, reset hash stored exactly when a reset expiry
  is); every operation preserves it.
- `auth_service.dfy` (module `AuthService`): the class `UserStore`, whose
  `users` map and `nextId` counter the methods update in place one store call at
  a time (create, then store the refresh token; find, then save), each proved
  to perform the `AuthSpec` transition. `RefreshTokenProcess` only reads.
- `auth_properties.dfy` (module `AuthProperties`): lemmas that relate
  operations: issued refresh tokens are honoured, logout and re-login revoke
  them, delete is followed by a harmless logout, reset tokens work until expiry
  and only once, and a reset password logs in.
- `auth_controller.dfy` (module `AuthController`): the handlers as functions
  from a service outcome (a value or a thrown error message) to a `Response`,
  and lemmas that compose them with the service transitions.

Time (`Date.now()`), randomness (the password salt, the plaintext reset
token) and whether the reset mail went out are parameters. Each operation is
atomic.

Two behaviours of the code worth noting:
- `register` answers 201 with the whole service result in the body, tokens
  included, and sets no cookie.
- `updateUser` answers 500, not 404, for a missing target. The controller has
  no branch for `USER_NOT_FOUND`.

## Model

| member | source | states |
|---|---|---|
| `AuthSpec.GenerateTokens` | src/services/authService.js:6-16 | access and refresh tokens for the id, signed with their own secrets; when the signing library is sound both verify as that id at issue time and the refresh token is non-empty |
| `AuthSpec.GetMe` | src/services/authService.js:90-97 | the public view carries exactly the record's id, email, name and role |
| `AuthProperties.GetMeHidesSecrets` | src/services/authService.js:90-97 | records differing only in password hash, refresh token or reset fields have the same public view |
| `AuthSpec.FindByEmail` | src/services/authService.js:19 | finds no record exactly when no record has the email; otherwise the record with it that has the least id |
| `AuthSpec.RegisterUser` | src/services/authService.js:18-39 | fails with EMAIL_EXIST exactly when a record has the email, leaving the collection unchanged; otherwise inserts one record under the next id, with the hashed password, the given or default role, and the returned refresh token in its slot; no other record changes; the invariant is kept |
| `AuthService.UserStore.Create` | src/services/authService.js:22 | inserts the record under a fresh id and advances the id counter |
| `AuthService.UserStore.RegisterUser` | src/services/authService.js:18-39 | creates the record, then stores the refresh token on it; the resulting state and answer are those of `AuthSpec.RegisterUser` |
| `AuthSpec.LoginUser` | src/services/authService.js:41-64 | an unknown email and a wrong password both fail with INVALID_CREDENTIALS and leave the collection unchanged; with unique emails it succeeds exactly when the password matches; success rewrites only that record's refresh-token slot, to the returned token |
| `AuthService.UserStore.LoginUser` | src/services/authService.js:41-64 | finds, compares, then stores the new refresh token; state and answer are those of `AuthSpec.LoginUser` |
| `AuthSpec.RefreshTokenProcess` | src/services/authService.js:66-88 | checks in order: no token gives NO_REFRESH_TOKEN, a token that does not verify gives REFRESH_TOKEN_INVALID, a user missing or holding another token gives REFRESH_TOKEN_NOT_MATCH; success issues an access token for a user whose slot holds exactly the presented token |
| `AuthService.UserStore.RefreshTokenProcess` | src/services/authService.js:66-88 | reads the store without modifying it and answers as `AuthSpec.RefreshTokenProcess` |
| `AuthSpec.LogoutUser` | src/services/authService.js:99-101 | empties that record's refresh-token slot and changes nothing else; an unknown id changes nothing |
| `AuthService.UserStore.LogoutUser` | src/services/authService.js:99-101 | updates the store as `AuthSpec.LogoutUser` |
| `AuthSpec.DeleteUser` | src/services/authService.js:103-105 | removes exactly that record; the others are unchanged |
| `AuthService.UserStore.DeleteUser` | src/services/authService.js:103-105 | updates the store as `AuthSpec.DeleteUser` |
| `AuthSpec.UpdateUser` | src/services/authService.js:136-155 | a missing target fails first with USER_NOT_FOUND; a non-admin acting on another record fails with NOT_AUTHORIZATION; both change nothing; otherwise only the name (when non-empty) and, for an admin, the role (when non-empty) change, and the answer is id, name and role |
| `AuthService.UserStore.UpdateUser` | src/services/authService.js:136-155 | reads the target, applies the field rule, saves; state and answer are those of `AuthSpec.UpdateUser` |
| `AuthSpec.CreatePasswordResetToken` | src/services/authService.js:163-176 | sets only the reset fields, so that the record answers the reset query for the token's digest exactly until ten minutes after issue |
| `AuthSpec.ForgotPassword` | src/services/authService.js:158-195 | an unknown email fails with EMAIL_NOT_FOUND and changes nothing; otherwise the reset hash and expiry are stored on that record and the call succeeds whether or not the mail goes out |
| `AuthService.UserStore.ForgotPassword` | src/services/authService.js:158-195 | stores the reset token before the mail attempt; state and answer are those of `AuthSpec.ForgotPassword` |
| `AuthSpec.FindByResetHash` | src/services/authService.js:204-207 | finds a record exactly when some record holds the digest with an expiry after now; it is the holder with the least id |
| `AuthSpec.ResetPassword` | src/services/authService.js:198-217 | succeeds exactly when some record holds the token's digest unexpired, otherwise fails with TOKEN_INVALID_OR_EXPIRED changing nothing; success sets the new password hash and clears both reset fields of one such record and changes nothing else |
| `AuthService.UserStore.ResetPassword` | src/services/authService.js:198-217 | hashes the token, finds the record, sets the password and clears the reset fields; state and answer are those of `AuthSpec.ResetPassword` |
| `AuthProperties.RegisterThenRefresh` | src/services/authService.js:24-28 | the refresh token a registration returns is honoured right away |
| `AuthProperties.LoginThenRefresh` | src/services/authService.js:49-53 | the refresh token a login returns is honoured right away |
| `AuthProperties.LogoutRevokesRefresh` | src/services/authService.js:78-79 | after logout no token verifying as that user is honoured; it fails with REFRESH_TOKEN_NOT_MATCH |
| `AuthProperties.LoginLogoutRefresh` | src/services/authService.js:99-101 | login, logout, then refresh with the issued token fails with REFRESH_TOKEN_NOT_MATCH |
| `AuthProperties.LogoutIdempotent` | src/services/authService.js:99-101 | logging out twice equals logging out once |
| `AuthProperties.ReloginRevokesPreviousToken` | src/services/authService.js:49-53 | a second login of the same email concerns the same record, and the first login's different refresh token is then refused |
| `AuthProperties.DeleteThenLogoutIsNoop` | src/controllers/authController.js:97-108 | the logout the delete handler issues after deleting changes nothing |
| `AuthProperties.DeletedUserCannotRefresh` | src/services/authService.js:103-105 | a deleted user's refresh tokens are refused with REFRESH_TOKEN_NOT_MATCH |
| `AuthProperties.DeletedUserCannotLogin` | src/services/authService.js:103-105 | with unique emails, a deleted user's email no longer logs in with any password |
| `AuthProperties.NonAdminCannotUpdateOthers` | src/services/authService.js:141-143 | a non-admin updating another existing record fails with NOT_AUTHORIZATION whatever the patch, changing nothing |
| `AuthProperties.OnlyAdminChangesRole` | src/services/authService.js:146 | when the actor is not an admin no role in the collection changes |
| `AuthProperties.UpdateKeepsSessions` | src/services/authService.js:145-148 | an update never changes how any refresh is answered |
| `AuthProperties.ForgotPasswordIgnoresSendFailure` | src/services/authService.js:180-194 | the mail's success or failure changes neither the stored state nor whether the call succeeds |
| `AuthProperties.ForgotThenReset` | src/services/authService.js:198-209 | a reset with the stored token succeeds at any time before its expiry |
| `AuthProperties.ForgotThenLateReset` | src/services/authService.js:204-209 | once the expiry has passed the reset fails with TOKEN_INVALID_OR_EXPIRED even though the digest matches, when no other record holds that digest |
| `AuthProperties.ResetTokenSingleUse` | src/services/authService.js:211-214 | when one record holds the digest, a second reset with the same token fails |
| `AuthProperties.ResetThenLogin` | src/services/authService.js:211-214 | with a sound password library and unique emails, the new password logs that record in |
| `AuthProperties.ResetKeepsSessions` | src/services/authService.js:211-214 | a reset does not revoke the stored refresh token: every refresh answers as before |
| `AuthController.Raised` | src/controllers/authController.js:17 | a service error reaches the handler as its tag, a value as itself |
| `AuthController.Register` | src/controllers/authController.js:12-23 | success is 201 with the service result, no code and no cookie; EMAIL_EXIST is 400 with that code; any other error is 500 with its message |
| `AuthController.Login` | src/controllers/authController.js:25-47 | success is 200 with no code, access token and user in the body and the refresh token only in the cookie; INVALID_CREDENTIALS is 400; other errors 500 |
| `AuthController.Refresh` | src/controllers/authController.js:49-72 | a missing or empty cookie is 401 NO_REFRESH_TOKEN regardless of the service; success is 200 with the access token and no code; any service error is 401 with its tag as code |
| `AuthController.GetMe` | src/controllers/authController.js:74-81 | success is 200 with the public view and no code; an error is 500 with its message |
| `AuthController.Logout` | src/controllers/authController.js:83-95 | answers 200 and clears the cookie unless an authenticated user's logout throws, which is 500 |
| `AuthController.DeleteUser` | src/controllers/authController.js:97-108 | answers 200 and clears the cookie when both calls return; otherwise 500 with the first error's message |
| `AuthController.UpdateUser` | src/controllers/authController.js:110-129 | NOT_AUTHORIZATION is 403; every other error, USER_NOT_FOUND included, is 500; success is 200 with the updated id, name and role and no code |
| `AuthController.ForgotPassword` | src/controllers/authController.js:141-153 | EMAIL_NOT_FOUND is 404, other errors 500, success 200, never with a code |
| `AuthController.ResetPassword` | src/controllers/authController.js:156-163 | any error is 400, success 200 |
| `AuthController.RegisterAnswers` | src/controllers/authController.js:12-23 | over the service: 400 EMAIL_EXIST exactly when the email is in use, 201 otherwise |
| `AuthController.LoginFailuresIndistinguishable` | src/controllers/authController.js:36-42 | every failed login gets the identical 400 INVALID_CREDENTIALS response |
| `AuthController.LoginCookieMatchesStore` | src/controllers/authController.js:29-34 | the cookie a successful login sets is the token now stored for that user |
| `AuthController.RefreshWithoutCookieSkipsService` | src/controllers/authController.js:53-60 | without a cookie the response does not depend on the service |
| `AuthController.RefreshAnswers` | src/controllers/authController.js:62-71 | over the service: 200 exactly on success, otherwise 401 with the service's tag |
| `AuthController.UpdateUserAnswers` | src/controllers/authController.js:123-128 | over the service: a missing target is 500 USER_NOT_FOUND, a forbidden update 403, success exactly when allowed |
| `AuthController.ForgotPasswordHidesSendFailure` | src/controllers/authController.js:141-153 | over the service: the same response whether or not the mail went out; 200 for a known email, 404 otherwise |
| `AuthController.ResetPasswordAnswers` | src/controllers/authController.js:156-163 | over the service: 200 exactly when some record holds the token's digest unexpired, else 400 |
| `AuthController.LogoutAnswers` | src/controllers/authController.js:83-95 | without a user, or once the service returns, logout is 200 and clears the cookie |

## Left out

- JWT internals: signing, verification and the expiry arithmetic of
  `jsonwebtoken` (including the configured lifetimes) are the abstract
  functions `Env.sign` and `Env.verify`; `JwtSound` is assumed only where a
  lemma names it.
- Crypto internals: bcrypt hashing and comparison, the SHA-256 digest and
  random token generation are abstract (`Env.hashPassword`,
  `Env.comparePassword`, `Env.sha256`, salt and token parameters).
- The user schema is not part of this model: `createPasswordResetToken`
  is taken to store the SHA-256 digest of its plaintext and an expiry ten
  minutes on, as the reset query and the mail text imply; the default role is
  the configuration value `Env.defaultRole`; schema validation (required
  fields, role enumeration) and the store's own duplicate-key error are not
  modelled, so no operation fails with a validation error.
- Database and other unexpected failures: the service operations in the model
  never throw anything but their own tags; the controller functions still
  take any thrown message, and each handler's catch-all branch covers it (500,
  or 401 for `refresh` and 400 for `resetPassword`).
- Ids are compared as values (natural numbers). A malformed id passed to
  `findById` (a cast error) is not modelled. Neither is the gap between
  src/services/authService.js:137 and :141: `findById` converts the id string
  to an ObjectId, while the authorisation check compares the raw strings. A
  non-admin whose URL spells their own id differently (upper-case hex, say)
  is refused by the source with NOT_AUTHORIZATION, but the model lets the
  update through.
- Request fields are modelled as strings. The handlers pass the parsed JSON
  body through unchanged, so a field may carry an object, and `findOne` at
  src/services/authService.js:19, 42 and 159 reads such an object as a query
  operator (for example `{"$ne": null}` as the email matches another
  record). The model cannot express this query injection.
- The mail transport (src/utils/sendEmail.js) is a boolean parameter, and the
  HTML body of the reset mail and the response messages are not modelled.
- `getUsers`: the controller calls a service function that the service file
  does not define, so there is nothing to model.
- The commented-out `updateUser` in src/services/authService.js is not
  modelled.
- Console logging, the authentication middleware that fills `req.user`, the
  Firebase setup (src/config/firebase.js) and the Express wiring
  (src/server.js) are not modelled.
- Code outside the two files: the 200 status of a success comes from the
  default of `successResponse` in src/utils/response.js, which is not part of
  this model, and the login cookie's options (httpOnly, secure, sameSite
  "none", a seven-day maxAge, src/controllers/authController.js:5-10) are not
  modelled; `SetRefreshCookie` carries only the token.
- Concurrency: each operation is atomic; the read-then-save races in
  `updateUser` and `resetPassword` are not modelled.
