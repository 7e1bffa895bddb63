/** The HTTP handlers of src/controllers/authController.js: each turns what its
    service call produced into a status, an error code, a cookie action and a
    response body. A service error reaches a handler as the message of the
    error it threw, and the handlers compare those messages as the source does. */
module AuthController {
  import opened Base
  import AuthSpec

  /** What a service call produced: its value, or an error thrown with a message. */
  datatype Outcome<+T> = Done(value: T) | Thrown(message: string)

  /** The service's result as its caller sees it: an error is thrown with its tag. */
  function Raised<T>(r: AuthSpec.Result<T>): (o: Outcome<T>)
    ensures o.Done? <==> r.Ok?
    ensures r.Ok? ==> o.value == r.value
    ensures r.Err? ==> o.message == r.error.Tag()
  {
    match r
    case Ok(v) => Done(v)
    case Err(e) => Thrown(e.Tag())
  }

  /** What a handler does to the `refreshToken` cookie. */
  datatype CookieAction = Untouched | SetRefreshCookie(token: Token) | ClearRefreshCookie

  /** The `data` of a success envelope. */
  datatype Data =
    | NoData
    | SessionData(session: AuthSpec.Session)
    | LoginData(accessToken: Token, user: AuthSpec.PublicUser)
    | AccessData(accessToken: Token)
    | ProfileData(user: AuthSpec.PublicUser)
    | UpdatedData(updated: AuthSpec.UpdatedUser)

  /** A response: its status, the `code` of an error envelope, the cookie action
      and the data of a success envelope. */
  datatype Response = Response(status: int, code: Option<string>, cookie: CookieAction, data: Data)

  function Failure(status: int, code: Option<string>): Response {
    Response(status, code, Untouched, NoData)
  }

  /** register: 201 with the whole service result (tokens included) and no
      cookie; EMAIL_EXIST is a 400 with that code; any other error a 500
      carrying its message. */
  function Register(o: Outcome<AuthSpec.Session>): (r: Response)
    ensures r.cookie == Untouched
    ensures r.status == 201 <==> o.Done?
    ensures o.Done? ==> r == Response(201, None, Untouched, SessionData(o.value))
    ensures o.Thrown? ==> r.data == NoData && r.code == Some(o.message)
    ensures o.Thrown? ==> (r.status == 400 <==> o.message == "EMAIL_EXIST") && (r.status == 400 || r.status == 500)
  {
    match o
    case Done(result) => Response(201, None, Untouched, SessionData(result))
    case Thrown(m) =>
      if m == "EMAIL_EXIST" then Failure(400, Some("EMAIL_EXIST")) else Failure(500, Some(m))
  }

  /** login: 200 with the access token and the public user in the body, and the
      refresh token only in the cookie; INVALID_CREDENTIALS is a 400 with that
      code; any other error a 500 carrying its message. */
  function Login(o: Outcome<AuthSpec.Session>): (r: Response)
    ensures r.status == 200 <==> o.Done?
    ensures o.Done? ==>
      r == Response(200, None, SetRefreshCookie(o.value.tokens.refreshToken),
                    LoginData(o.value.tokens.accessToken, o.value.user))
    ensures o.Thrown? ==> r.cookie == Untouched && r.data == NoData && r.code == Some(o.message)
    ensures o.Thrown? ==> (r.status == 400 <==> o.message == "INVALID_CREDENTIALS") && (r.status == 400 || r.status == 500)
  {
    match o
    case Done(s) => Response(200, None, SetRefreshCookie(s.tokens.refreshToken), LoginData(s.tokens.accessToken, s.user))
    case Thrown(m) =>
      if m == "INVALID_CREDENTIALS" then Failure(400, Some("INVALID_CREDENTIALS")) else Failure(500, Some(m))
  }

  /** refresh: a missing or empty cookie is a 401 NO_REFRESH_TOKEN and the
      service outcome is not looked at (the service is not called); otherwise
      200 with the new access token, and every error a 401 carrying its message. */
  function Refresh(cookie: Option<Token>, o: Outcome<Token>): (r: Response)
    ensures r.cookie == Untouched
    ensures !AuthSpec.Presented(cookie) ==> r == Failure(401, Some("NO_REFRESH_TOKEN"))
    ensures AuthSpec.Presented(cookie) && o.Done? ==> r == Response(200, None, Untouched, AccessData(o.value))
    ensures AuthSpec.Presented(cookie) && o.Thrown? ==> r == Failure(401, Some(o.message))
  {
    if !AuthSpec.Presented(cookie) then Failure(401, Some("NO_REFRESH_TOKEN"))
    else match o
      case Done(accessToken) => Response(200, None, Untouched, AccessData(accessToken))
      case Thrown(m) => Failure(401, Some(m))
  }

  /** getMe: 200 with the public view; any error a 500 carrying its message. */
  function GetMe(o: Outcome<AuthSpec.PublicUser>): (r: Response)
    ensures r.cookie == Untouched
    ensures r.status == 200 <==> o.Done?
    ensures o.Done? ==> r == Response(200, None, Untouched, ProfileData(o.value))
    ensures o.Thrown? ==> r == Failure(500, Some(o.message))
  {
    match o
    case Done(v) => Response(200, None, Untouched, ProfileData(v))
    case Thrown(m) => Failure(500, Some(m))
  }

  /** logout: the service is called only for an authenticated user; the cookie
      is cleared and the answer is 200 unless that call throws, which is a 500
      carrying its message. */
  function Logout(user: Option<UserId>, o: Outcome<()>): (r: Response)
    ensures r.status == 200 <==> (user.None? || o.Done?)
    ensures r.status == 200 ==> r == Response(200, None, ClearRefreshCookie, NoData)
    ensures r.status != 200 ==> o.Thrown? && r == Failure(500, Some(o.message))
  {
    if user.Some? && o.Thrown? then Failure(500, Some(o.message))
    else Response(200, None, ClearRefreshCookie, NoData)
  }

  /** deleteUser: deletes, then logs the same user out, then clears the cookie
      and answers 200; an error in either call is a 500 carrying its message. */
  function DeleteUser(deleted: Outcome<()>, loggedOut: Outcome<()>): (r: Response)
    ensures r.status == 200 <==> deleted.Done? && loggedOut.Done?
    ensures r.status == 200 ==> r == Response(200, None, ClearRefreshCookie, NoData)
    ensures deleted.Thrown? ==> r == Failure(500, Some(deleted.message))
    ensures deleted.Done? && loggedOut.Thrown? ==> r == Failure(500, Some(loggedOut.message))
  {
    if deleted.Thrown? then Failure(500, Some(deleted.message))
    else if loggedOut.Thrown? then Failure(500, Some(loggedOut.message))
    else Response(200, None, ClearRefreshCookie, NoData)
  }

  /** updateUser: 200 with the updated id, name and role; NOT_AUTHORIZATION is
      a 403 without a code; every other error, USER_NOT_FOUND included, a 500
      carrying its message. */
  function UpdateUser(o: Outcome<AuthSpec.UpdatedUser>): (r: Response)
    ensures r.cookie == Untouched
    ensures r.status == 200 <==> o.Done?
    ensures o.Done? ==> r == Response(200, None, Untouched, UpdatedData(o.value))
    ensures o.Thrown? && o.message == "NOT_AUTHORIZATION" ==> r == Failure(403, None)
    ensures o.Thrown? && o.message != "NOT_AUTHORIZATION" ==> r == Failure(500, Some(o.message))
  {
    match o
    case Done(u) => Response(200, None, Untouched, UpdatedData(u))
    case Thrown(m) =>
      if m == "NOT_AUTHORIZATION" then Failure(403, None) else Failure(500, Some(m))
  }

  /** forgotPassword: 200 without data; EMAIL_NOT_FOUND is a 404 and any other
      error a 500, neither with a code. */
  function ForgotPassword(o: Outcome<AuthSpec.ResetNotice>): (r: Response)
    ensures r.code.None? && r.cookie == Untouched && r.data == NoData
    ensures r.status == 200 <==> o.Done?
    ensures o.Thrown? ==> r.status == (if o.message == "EMAIL_NOT_FOUND" then 404 else 500)
  {
    match o
    case Done(_) => Response(200, None, Untouched, NoData)
    case Thrown(m) => if m == "EMAIL_NOT_FOUND" then Failure(404, None) else Failure(500, None)
  }

  /** resetPassword: 200 without data; any error a 400 without a code. */
  function ResetPassword(o: Outcome<()>): (r: Response)
    ensures r.code.None? && r.cookie == Untouched && r.data == NoData
    ensures r.status == (if o.Done? then 200 else 400)
  {
    match o
    case Done(_) => Response(200, None, Untouched, NoData)
    case Thrown(_) => Failure(400, None)
  }

  // The handlers over what the service does.

  /** Registering answers 201, or 400 EMAIL_EXIST exactly when the email is in use. */
  lemma RegisterAnswers(env: Env, db: AuthSpec.Db, req: AuthSpec.RegisterRequest, salt: string, now: int)
    ensures var r := Register(Raised(AuthSpec.RegisterUser(env, db, req, salt, now).result));
      if AuthSpec.EmailTaken(db.users, req.email)
      then r == Failure(400, Some("EMAIL_EXIST"))
      else r.status == 201
  {
  }

  /** A failed login answers the same whether the email was unknown or the
      password wrong, so the answer does not tell which. */
  lemma LoginFailuresIndistinguishable(env: Env, db: AuthSpec.Db, email1: string, password1: string,
                                       email2: string, password2: string, now1: int, now2: int)
    requires AuthSpec.LoginUser(env, db, email1, password1, now1).result.Err?
    requires AuthSpec.LoginUser(env, db, email2, password2, now2).result.Err?
    ensures Login(Raised(AuthSpec.LoginUser(env, db, email1, password1, now1).result))
         == Login(Raised(AuthSpec.LoginUser(env, db, email2, password2, now2).result))
         == Failure(400, Some("INVALID_CREDENTIALS"))
  {
  }

  /** A successful login sets the cookie to the very token the store now holds
      for that user, and puts only the access token in the body. */
  lemma LoginCookieMatchesStore(env: Env, db: AuthSpec.Db, email: string, password: string, now: int)
    requires AuthSpec.LoginUser(env, db, email, password, now).result.Ok?
    ensures var s := AuthSpec.LoginUser(env, db, email, password, now);
      var r := Login(Raised(s.result));
      var id := s.result.value.user.id;
      && r.status == 200
      && id in s.db.users
      && r.cookie == SetRefreshCookie(s.db.users[id].refreshToken.value)
      && r.data == LoginData(s.result.value.tokens.accessToken, s.result.value.user)
  {
  }

  /** Without a cookie the answer is the same whatever the service would do. */
  lemma RefreshWithoutCookieSkipsService(cookie: Option<Token>, o1: Outcome<Token>, o2: Outcome<Token>)
    requires !AuthSpec.Presented(cookie)
    ensures Refresh(cookie, o1) == Refresh(cookie, o2) == Failure(401, Some("NO_REFRESH_TOKEN"))
  {
  }

  /** A refresh answers 200 or 401, and a 401 carries the reason the service gave. */
  lemma RefreshAnswers(env: Env, db: AuthSpec.Db, cookie: Option<Token>, now: int)
    ensures var res := AuthSpec.RefreshTokenProcess(env, db, cookie, now);
      var r := Refresh(cookie, Raised(res));
      && (r.status == 200 <==> res.Ok?)
      && (res.Err? ==> r == Failure(401, Some(res.error.Tag())))
  {
  }

  /** An update of a missing user answers 500 with USER_NOT_FOUND, and an
      update that is not allowed answers 403. */
  lemma UpdateUserAnswers(db: AuthSpec.Db, targetId: UserId, patch: AuthSpec.Patch, actingId: UserId, actingRole: string)
    ensures var r := UpdateUser(Raised(AuthSpec.UpdateUser(db, targetId, patch, actingId, actingRole).result));
      && (targetId !in db.users ==> r == Failure(500, Some("USER_NOT_FOUND")))
      && (targetId in db.users && actingRole != AuthSpec.AdminRole && actingId != targetId ==> r == Failure(403, None))
      && (r.status == 200 <==> targetId in db.users && (actingRole == AuthSpec.AdminRole || actingId == targetId))
  {
  }

  /** forgotPassword answers the same whether or not the mail went out: 200 for
      a known email and 404 for an unknown one. */
  lemma ForgotPasswordHidesSendFailure(env: Env, db: AuthSpec.Db, email: string, token: string, now: int)
    ensures var r1 := ForgotPassword(Raised(AuthSpec.ForgotPassword(env, db, email, token, now, true).result));
      var r2 := ForgotPassword(Raised(AuthSpec.ForgotPassword(env, db, email, token, now, false).result));
      && r1 == r2
      && r1.status == (if AuthSpec.EmailTaken(db.users, email) then 200 else 404)
  {
  }

  /** resetPassword answers 200 exactly when some record holds the token's
      digest unexpired, and 400 otherwise. */
  lemma ResetPasswordAnswers(env: Env, db: AuthSpec.Db, token: string, newPassword: string, salt: string, now: int)
    ensures var r := ResetPassword(Raised(AuthSpec.ResetPassword(env, db, token, newPassword, salt, now).result));
      r.status == (if exists id :: id in db.users && AuthSpec.HoldsResetToken(db.users[id], env.sha256(token), now) then 200 else 400)
  {
  }

  /** Without an authenticated user logout answers 200 and clears the cookie
      whatever the service would do; with one it does so once the service's
      logout returns. */
  lemma LogoutAnswers(user: Option<UserId>, o: Outcome<()>)
    requires user.None? || o.Done?
    ensures Logout(user, o) == Response(200, None, ClearRefreshCookie, NoData)
  {
  }
}
