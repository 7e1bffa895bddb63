/** The session and password-reset lifecycle of the authentication service
    (src/services/authService.js), as pure transitions over a value of the
    user collection. Each operation returns its outcome together with the
    collection it leaves behind; the store class in AuthService is proved to
    perform exactly these transitions. */
module AuthSpec {
  import opened Base

  /** The role that may update other users and change roles. */
  const AdminRole: string := "admin"

  /** A reset token stays usable for ten minutes (in milliseconds). */
  const ResetTokenLifetime: int := 10 * 60 * 1000

  /** A stored user record. `refreshToken` is the single slot holding the one
      refresh token that is currently honoured. */
  datatype User = User(
    email: string,
    passwordHash: Hash,
    name: string,
    role: string,
    refreshToken: Option<Token>,
    resetHash: Option<Hash>,
    resetExpire: Option<int>)

  /** The user collection: records by id, and the id the next insertion gets. */
  datatype Db = Db(users: map<UserId, User>, nextId: UserId) {
    /** Every id was handed out already, emails are unique, and a reset hash is
        stored exactly when a reset expiry is. */
    ghost predicate Valid() {
      && (forall id :: id in users ==> id < nextId)
      && (forall a, b :: a in users && b in users && users[a].email == users[b].email ==> a == b)
      && (forall id :: id in users ==> (users[id].resetHash.Some? <==> users[id].resetExpire.Some?))
    }
  }

  datatype AuthError =
    | EmailExist
    | InvalidCredentials
    | NoRefreshToken
    | RefreshTokenInvalid
    | RefreshTokenNotMatch
    | UserNotFound
    | NotAuthorization
    | EmailNotFound
    | TokenInvalidOrExpired
  {
    /** The message of the error the service throws. */
    function Tag(): string {
      match this
      case EmailExist => "EMAIL_EXIST"
      case InvalidCredentials => "INVALID_CREDENTIALS"
      case NoRefreshToken => "NO_REFRESH_TOKEN"
      case RefreshTokenInvalid => "REFRESH_TOKEN_INVALID"
      case RefreshTokenNotMatch => "REFRESH_TOKEN_NOT_MATCH"
      case UserNotFound => "USER_NOT_FOUND"
      case NotAuthorization => "NOT_AUTHORIZATION"
      case EmailNotFound => "EMAIL_NOT_FOUND"
      case TokenInvalidOrExpired => "TOKEN_INVALID_OR_EXPIRED"
    }
  }

  datatype Result<+T> = Ok(value: T) | Err(error: AuthError)

  /** The outcome of an operation and the collection after it. */
  datatype Step<+T> = Step(result: Result<T>, db: Db)

  datatype TokenPair = TokenPair(accessToken: Token, refreshToken: Token)

  /** The public view of a record: never the password hash, refresh token or reset fields. */
  datatype PublicUser = PublicUser(id: UserId, email: string, name: string, role: string)

  datatype Session = Session(tokens: TokenPair, user: PublicUser)

  datatype RegisterRequest = RegisterRequest(email: string, password: string, name: string, role: Option<string>)

  /** The body of an update request; a field counts only when present and non-empty. */
  datatype Patch = Patch(name: Option<string>, role: Option<string>)

  /** What updateUser answers: the record's id, name and role. */
  datatype UpdatedUser = UpdatedUser(id: UserId, name: string, role: string)

  /** What forgotPassword answers: whether the mail went out. Either way it is a success. */
  datatype ResetNotice = EmailSent | SendFailedReportedAsSuccess

  /** A request field holding a value JavaScript treats as true. */
  predicate Truthy(field: Option<string>) {
    field.Some? && field.value != ""
  }

  predicate EmailTaken(users: map<UserId, User>, email: string) {
    exists id :: id in users && users[id].email == email
  }

  /** `findOne({ email })`: a record with that email. The model fixes the one
      with the least id as the store's choice. */
  function FindByEmail(users: map<UserId, User>, email: string): (r: Option<UserId>)
    ensures r.None? <==> !EmailTaken(users, email)
    ensures r.Some? ==> r.value in users && users[r.value].email == email
    ensures r.Some? ==> forall id :: id in users && users[id].email == email ==> r.value <= id
  {
    var holders := set id | id in users && users[id].email == email;
    assert forall id :: id in users && users[id].email == email ==> id in holders;
    Earliest(holders)
  }

  /** A record answers the reset query for `hash` at time `now`: it stores that
      hash and an expiry still in the future. */
  predicate HoldsResetToken(u: User, hash: Hash, now: int) {
    u.resetHash == Some(hash) && u.resetExpire.Some? && u.resetExpire.value > now
  }

  /** The reset query `findOne({ resetPasswordToken: hash, resetPasswordExpire: { $gt: now } })`:
      a record holding the digest unexpired, the one with the least id. */
  function FindByResetHash(users: map<UserId, User>, hash: Hash, now: int): (r: Option<UserId>)
    ensures r.None? <==> forall id :: id in users ==> !HoldsResetToken(users[id], hash, now)
    ensures r.Some? ==> r.value in users && HoldsResetToken(users[r.value], hash, now)
    ensures r.Some? ==> forall id :: id in users && HoldsResetToken(users[id], hash, now) ==> r.value <= id
  {
    var holders := set id | id in users && HoldsResetToken(users[id], hash, now);
    assert forall id :: id in users && HoldsResetToken(users[id], hash, now) ==> id in holders;
    Earliest(holders)
  }

  /** generateTokens: an access token and a refresh token for `id`, signed with
      their own secrets; both verify as `id` when issued. */
  function GenerateTokens(env: Env, id: UserId, now: int): (t: TokenPair)
    ensures JwtSound(env) ==>
      && env.verify(t.accessToken, env.accessSecret, now) == Some(id)
      && env.verify(t.refreshToken, env.refreshSecret, now) == Some(id)
      && t.refreshToken != ""
  {
    TokenPair(env.sign(id, env.accessSecret, now), env.sign(id, env.refreshSecret, now))
  }

  /** getMe: the public view of an authenticated record. */
  function GetMe(id: UserId, u: User): (v: PublicUser)
    ensures v.id == id && v.email == u.email && v.name == u.name && v.role == u.role
  {
    PublicUser(id, u.email, u.name, u.role)
  }

  /** registerUser: rejects an email already in use, leaving the collection as it
      was; otherwise inserts a record under the next id whose refresh-token slot
      holds the refresh token it returns, and touches no other record. */
  function RegisterUser(env: Env, db: Db, req: RegisterRequest, salt: string, now: int): (s: Step<Session>)
    ensures s.result.Err? <==> EmailTaken(db.users, req.email)
    ensures s.result.Err? ==> s == Step(Err(EmailExist), db)
    ensures s.result.Ok? ==> db.nextId in s.db.users
    ensures s.result.Ok? ==>
      var id := db.nextId;
      var u := s.db.users[id];
      && s.db.users == db.users[id := u]
      && s.db.nextId == id + 1
      && u.email == req.email
      && u.passwordHash == env.hashPassword(req.password, salt)
      && u.name == req.name
      && u.role == (if req.role.Some? then req.role.value else env.defaultRole)
      && u.refreshToken == Some(s.result.value.tokens.refreshToken)
      && u.resetHash.None? && u.resetExpire.None?
      && s.result.value.tokens == GenerateTokens(env, id, now)
      && s.result.value.user == GetMe(id, u)
    ensures db.Valid() ==> s.db.Valid()
  {
    if EmailTaken(db.users, req.email) then
      Step(Err(EmailExist), db)
    else
      var id := db.nextId;
      var role := if req.role.Some? then req.role.value else env.defaultRole;
      var created := User(req.email, env.hashPassword(req.password, salt), req.name, role, None, None, None);
      var tokens := GenerateTokens(env, id, now);
      Step(Ok(Session(tokens, GetMe(id, created))),
           Db(db.users[id := created.(refreshToken := Some(tokens.refreshToken))], id + 1))
  }

  /** loginUser: an unknown email and a wrong password fail alike with
      INVALID_CREDENTIALS and change nothing; a success rotates the refresh-token
      slot of that one record to the refresh token it returns. */
  function LoginUser(env: Env, db: Db, email: string, password: string, now: int): (s: Step<Session>)
    ensures s.result.Err? ==> s == Step(Err(InvalidCredentials), db)
    ensures !EmailTaken(db.users, email) ==> s.result.Err?
    ensures db.Valid() ==>
      forall id :: id in db.users && db.users[id].email == email ==>
        (s.result.Ok? <==> env.comparePassword(password, db.users[id].passwordHash))
    ensures s.result.Ok? ==>
      var id := s.result.value.user.id;
      && id in db.users
      && db.users[id].email == email
      && s.db == Db(db.users[id := db.users[id].(refreshToken := Some(s.result.value.tokens.refreshToken))], db.nextId)
      && s.result.value.tokens == GenerateTokens(env, id, now)
      && s.result.value.user == GetMe(id, db.users[id])
    ensures db.Valid() ==> s.db.Valid()
  {
    match FindByEmail(db.users, email)
    case None => Step(Err(InvalidCredentials), db)
    case Some(id) =>
      var user := db.users[id];
      if !env.comparePassword(password, user.passwordHash) then
        Step(Err(InvalidCredentials), db)
      else
        var tokens := GenerateTokens(env, id, now);
        Step(Ok(Session(tokens, GetMe(id, user))),
             Db(db.users[id := user.(refreshToken := Some(tokens.refreshToken))], db.nextId))
  }

  /** A cookie value JavaScript treats as present. */
  predicate Presented(cookie: Option<Token>) {
    cookie.Some? && cookie.value != ""
  }

  /** refreshTokenProcess: checks, in this order, that a token was presented,
      that it verifies, and that its user still holds exactly this token in the
      refresh-token slot; only then issues a fresh access token for that user.
      It never changes the collection (it returns no collection). */
  function RefreshTokenProcess(env: Env, db: Db, cookie: Option<Token>, now: int): (r: Result<Token>)
    ensures !Presented(cookie) ==> r == Err(NoRefreshToken)
    ensures Presented(cookie) && env.verify(cookie.value, env.refreshSecret, now).None? ==>
      r == Err(RefreshTokenInvalid)
    ensures Presented(cookie) && env.verify(cookie.value, env.refreshSecret, now).Some? ==>
      var id := env.verify(cookie.value, env.refreshSecret, now).value;
      && (r.Ok? <==> id in db.users && db.users[id].refreshToken == cookie)
      && (r.Err? ==> r.error == RefreshTokenNotMatch)
      && (r.Ok? ==> r.value == env.sign(id, env.accessSecret, now))
    ensures r.Ok? && JwtSound(env) ==>
      exists id :: id in db.users && db.users[id].refreshToken == cookie &&
        env.verify(r.value, env.accessSecret, now) == Some(id)
  {
    if !Presented(cookie) then Err(NoRefreshToken)
    else match env.verify(cookie.value, env.refreshSecret, now)
      case None => Err(RefreshTokenInvalid)
      case Some(id) =>
        if id !in db.users || db.users[id].refreshToken != cookie then Err(RefreshTokenNotMatch)
        else Ok(env.sign(id, env.accessSecret, now))
  }

  /** logoutUser: empties the refresh-token slot of that record and changes
      nothing else; on an id with no record it changes nothing at all. */
  function LogoutUser(db: Db, id: UserId): (r: Db)
    ensures r.nextId == db.nextId && r.users.Keys == db.users.Keys
    ensures id in db.users ==> r.users == db.users[id := db.users[id].(refreshToken := None)]
    ensures id !in db.users ==> r == db
    ensures db.Valid() ==> r.Valid()
  {
    if id in db.users then Db(db.users[id := db.users[id].(refreshToken := None)], db.nextId)
    else db
  }

  /** deleteUser: removes that record, and only it. */
  function DeleteUser(db: Db, id: UserId): (r: Db)
    ensures r.nextId == db.nextId
    ensures id !in r.users && r.users.Keys == db.users.Keys - {id}
    ensures forall other :: other in r.users ==> r.users[other] == db.users[other]
    ensures db.Valid() ==> r.Valid()
  {
    Db(db.users - {id}, db.nextId)
  }

  /** updateUser: a missing target fails first with USER_NOT_FOUND; then anyone
      but an admin acting on another record fails with NOT_AUTHORIZATION. Both
      leave the collection as it was. Otherwise only the name (when given) and,
      for an admin, the role (when given) change, and the answer is the id,
      name and role after the update. */
  function UpdateUser(db: Db, targetId: UserId, patch: Patch, actingId: UserId, actingRole: string): (s: Step<UpdatedUser>)
    ensures targetId !in db.users ==> s == Step(Err(UserNotFound), db)
    ensures targetId in db.users && actingRole != AdminRole && actingId != targetId ==>
      s == Step(Err(NotAuthorization), db)
    ensures s.result.Ok? <==> targetId in db.users && (actingRole == AdminRole || actingId == targetId)
    ensures s.result.Ok? ==> targetId in s.db.users
    ensures s.result.Ok? ==>
      var before := db.users[targetId];
      var after := s.db.users[targetId];
      && s.db == Db(db.users[targetId := after], db.nextId)
      && after.(name := before.name, role := before.role) == before
      && after.name == (if Truthy(patch.name) then patch.name.value else before.name)
      && after.role == (if Truthy(patch.role) && actingRole == AdminRole then patch.role.value else before.role)
      && s.result.value == UpdatedUser(targetId, after.name, after.role)
    ensures db.Valid() ==> s.db.Valid()
  {
    if targetId !in db.users then Step(Err(UserNotFound), db)
    else if actingRole != AdminRole && actingId != targetId then Step(Err(NotAuthorization), db)
    else
      var user := db.users[targetId];
      var named := if Truthy(patch.name) then user.(name := patch.name.value) else user;
      var updated := if Truthy(patch.role) && actingRole == AdminRole then named.(role := patch.role.value) else named;
      Step(Ok(UpdatedUser(targetId, updated.name, updated.role)), Db(db.users[targetId := updated], db.nextId))
  }

  /** createPasswordResetToken: stores the digest of the plaintext `token` and an
      expiry ten minutes after `now` on the record, so that the record answers the
      reset query for that digest exactly until then; nothing else changes. */
  function CreatePasswordResetToken(env: Env, u: User, token: string, now: int): (r: User)
    ensures r.(resetHash := u.resetHash, resetExpire := u.resetExpire) == u
    ensures r.resetHash.Some? && r.resetExpire.Some?
    ensures forall t :: HoldsResetToken(r, env.sha256(token), t) <==> t < now + ResetTokenLifetime
  {
    u.(resetHash := Some(env.sha256(token)), resetExpire := Some(now + ResetTokenLifetime))
  }

  /** forgotPassword: an unknown email fails with EMAIL_NOT_FOUND and changes
      nothing; otherwise the reset token is stored on that record before the mail
      is attempted, and the operation succeeds whether or not the mail goes out.
      `token` is the random plaintext the record generates; `sendFails` is the
      mail transport's verdict. */
  function ForgotPassword(env: Env, db: Db, email: string, token: string, now: int, sendFails: bool): (s: Step<ResetNotice>)
    ensures s.result.Err? <==> !EmailTaken(db.users, email)
    ensures s.result.Err? ==> s == Step(Err(EmailNotFound), db)
    ensures s.result.Ok? ==>
      var id := FindByEmail(db.users, email).value;
      && s.db == Db(db.users[id := CreatePasswordResetToken(env, db.users[id], token, now)], db.nextId)
      && s.result.value == (if sendFails then SendFailedReportedAsSuccess else EmailSent)
    ensures db.Valid() ==> s.db.Valid()
  {
    match FindByEmail(db.users, email)
    case None => Step(Err(EmailNotFound), db)
    case Some(id) =>
      var pending := CreatePasswordResetToken(env, db.users[id], token, now);
      var notice := if sendFails then SendFailedReportedAsSuccess else EmailSent;
      Step(Ok(notice), Db(db.users[id := pending], db.nextId))
  }

  /** resetPassword: succeeds exactly when some record holds the digest of
      `token` with an expiry after `now`, and otherwise fails with
      TOKEN_INVALID_OR_EXPIRED, changing nothing. On success the record holding it
      with the least id gets the new password hash and both reset fields cleared; no other
      field and no other record changes. */
  function ResetPassword(env: Env, db: Db, token: string, newPassword: string, salt: string, now: int): (s: Step<()>)
    ensures s.result.Ok? <==> exists id :: id in db.users && HoldsResetToken(db.users[id], env.sha256(token), now)
    ensures s.result.Err? ==> s == Step(Err(TokenInvalidOrExpired), db)
    ensures s.result.Ok? ==>
      var id := FindByResetHash(db.users, env.sha256(token), now).value;
      && id in db.users
      && s.db == Db(db.users[id := db.users[id].(passwordHash := env.hashPassword(newPassword, salt),
                                                 resetHash := None, resetExpire := None)], db.nextId)
    ensures db.Valid() ==> s.db.Valid()
  {
    match FindByResetHash(db.users, env.sha256(token), now)
    case None => Step(Err(TokenInvalidOrExpired), db)
    case Some(id) =>
      var user := db.users[id];
      Step(Ok(()), Db(db.users[id := user.(passwordHash := env.hashPassword(newPassword, salt),
                                           resetHash := None, resetExpire := None)], db.nextId))
  }
}
