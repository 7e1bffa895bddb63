/** The authentication service over a mutable user collection
    (src/services/authService.js). Each method changes the stored records the
    way the service does, one store call at a time, and is proved to perform
    the transition AuthSpec gives for it. */
module AuthService {
  import opened Base
  import opened AuthSpec

  /** The user collection: records by id, and the id the next insertion gets. */
  class UserStore {
    var users: map<UserId, User>
    var nextId: UserId

    function State(): Db
      reads this
    {
      Db(users, nextId)
    }

    ghost predicate Valid()
      reads this
    {
      State().Valid()
    }

    constructor ()
      ensures Valid()
      ensures State() == Db(map[], 0)
    {
      users := map[];
      nextId := 0;
    }

    /** `User.create`: inserts a record under a fresh id. */
    method Create(u: User) returns (id: UserId)
      requires Valid()
      requires !EmailTaken(users, u.email)
      requires u.resetHash.Some? <==> u.resetExpire.Some?
      modifies this
      ensures Valid()
      ensures id == old(nextId) && id !in old(users)
      ensures State() == Db(old(users)[id := u], id + 1)
    {
      id := nextId;
      users := users[id := u];
      nextId := nextId + 1;
    }

    method RegisterUser(env: Env, req: RegisterRequest, salt: string, now: int) returns (r: Result<Session>)
      requires Valid()
      modifies this
      ensures Valid()
      ensures r == AuthSpec.RegisterUser(env, old(State()), req, salt, now).result
      ensures State() == AuthSpec.RegisterUser(env, old(State()), req, salt, now).db
    {
      if FindByEmail(users, req.email).Some? {
        return Err(EmailExist);
      }
      var role := if req.role.Some? then req.role.value else env.defaultRole;
      var created := User(req.email, env.hashPassword(req.password, salt), req.name, role, None, None, None);
      var id := Create(created);
      var tokens := GenerateTokens(env, id, now);
      // findByIdAndUpdate(id, { refreshToken })
      users := users[id := users[id].(refreshToken := Some(tokens.refreshToken))];
      r := Ok(Session(tokens, GetMe(id, created)));
    }

    method LoginUser(env: Env, email: string, password: string, now: int) returns (r: Result<Session>)
      requires Valid()
      modifies this
      ensures Valid()
      ensures r == AuthSpec.LoginUser(env, old(State()), email, password, now).result
      ensures State() == AuthSpec.LoginUser(env, old(State()), email, password, now).db
    {
      var found := FindByEmail(users, email);
      if found.None? {
        return Err(InvalidCredentials);
      }
      var id := found.value;
      var user := users[id];
      if !env.comparePassword(password, user.passwordHash) {
        return Err(InvalidCredentials);
      }
      var tokens := GenerateTokens(env, id, now);
      users := users[id := users[id].(refreshToken := Some(tokens.refreshToken))];
      r := Ok(Session(tokens, GetMe(id, user)));
    }

    /** Reads the collection and changes nothing. */
    method RefreshTokenProcess(env: Env, cookie: Option<Token>, now: int) returns (r: Result<Token>)
      ensures r == AuthSpec.RefreshTokenProcess(env, State(), cookie, now)
    {
      if !Presented(cookie) {
        return Err(NoRefreshToken);
      }
      var decoded := env.verify(cookie.value, env.refreshSecret, now);
      if decoded.None? {
        return Err(RefreshTokenInvalid);
      }
      var id := decoded.value;
      if id !in users || users[id].refreshToken != cookie {
        return Err(RefreshTokenNotMatch);
      }
      r := Ok(env.sign(id, env.accessSecret, now));
    }

    method LogoutUser(id: UserId)
      requires Valid()
      modifies this
      ensures Valid()
      ensures State() == AuthSpec.LogoutUser(old(State()), id)
    {
      // findByIdAndUpdate(id, { refreshToken: null }) matches nothing for an unknown id
      if id in users {
        users := users[id := users[id].(refreshToken := None)];
      }
    }

    method DeleteUser(id: UserId)
      requires Valid()
      modifies this
      ensures Valid()
      ensures State() == AuthSpec.DeleteUser(old(State()), id)
    {
      users := users - {id};
    }

    method UpdateUser(targetId: UserId, patch: Patch, actingId: UserId, actingRole: string) returns (r: Result<UpdatedUser>)
      requires Valid()
      modifies this
      ensures Valid()
      ensures r == AuthSpec.UpdateUser(old(State()), targetId, patch, actingId, actingRole).result
      ensures State() == AuthSpec.UpdateUser(old(State()), targetId, patch, actingId, actingRole).db
    {
      if targetId !in users {
        return Err(UserNotFound);
      }
      if actingRole != AdminRole && actingId != targetId {
        return Err(NotAuthorization);
      }
      var user := users[targetId];
      if Truthy(patch.name) {
        user := user.(name := patch.name.value);
      }
      if Truthy(patch.role) && actingRole == AdminRole {
        user := user.(role := patch.role.value);
      }
      // save()
      users := users[targetId := user];
      r := Ok(UpdatedUser(targetId, user.name, user.role));
    }

    method ForgotPassword(env: Env, email: string, token: string, now: int, sendFails: bool) returns (r: Result<ResetNotice>)
      requires Valid()
      modifies this
      ensures Valid()
      ensures r == AuthSpec.ForgotPassword(env, old(State()), email, token, now, sendFails).result
      ensures State() == AuthSpec.ForgotPassword(env, old(State()), email, token, now, sendFails).db
    {
      var found := FindByEmail(users, email);
      if found.None? {
        return Err(EmailNotFound);
      }
      var id := found.value;
      // createPasswordResetToken(), then save() before the mail is attempted
      users := users[id := CreatePasswordResetToken(env, users[id], token, now)];
      if sendFails {
        r := Ok(SendFailedReportedAsSuccess);
      } else {
        r := Ok(EmailSent);
      }
    }

    method ResetPassword(env: Env, token: string, newPassword: string, salt: string, now: int) returns (r: Result<()>)
      requires Valid()
      modifies this
      ensures Valid()
      ensures r == AuthSpec.ResetPassword(env, old(State()), token, newPassword, salt, now).result
      ensures State() == AuthSpec.ResetPassword(env, old(State()), token, newPassword, salt, now).db
    {
      var hashed := env.sha256(token);
      var found := FindByResetHash(users, hashed, now);
      if found.None? {
        return Err(TokenInvalidOrExpired);
      }
      var id := found.value;
      var user := users[id];
      user := user.(passwordHash := env.hashPassword(newPassword, salt));
      user := user.(resetHash := None, resetExpire := None);
      users := users[id := user];
      r := Ok(());
    }
  }
}
