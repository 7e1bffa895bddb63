/** Properties of the session and password-reset lifecycle that relate several
    operations: issuing, honouring and revoking the single refresh-token slot,
    and issuing, consuming and expiring a reset token. */
module AuthProperties {
  import opened Base
  import opened AuthSpec

  /** The public view shows the same thing for records that differ only in
      their password hash, refresh token or reset fields. */
  lemma GetMeHidesSecrets(id: UserId, u: User, v: User)
    requires u.email == v.email && u.name == v.name && u.role == v.role
    ensures GetMe(id, u) == GetMe(id, v)
  {
  }

  /** The refresh token a registration returns is honoured straight away. */
  lemma RegisterThenRefresh(env: Env, db: Db, req: RegisterRequest, salt: string, now: int)
    requires JwtSound(env)
    requires RegisterUser(env, db, req, salt, now).result.Ok?
    ensures var s := RegisterUser(env, db, req, salt, now);
      RefreshTokenProcess(env, s.db, Some(s.result.value.tokens.refreshToken), now)
        == Ok(env.sign(db.nextId, env.accessSecret, now))
  {
  }

  /** The refresh token a login returns is honoured straight away. */
  lemma LoginThenRefresh(env: Env, db: Db, email: string, password: string, now: int)
    requires JwtSound(env)
    requires LoginUser(env, db, email, password, now).result.Ok?
    ensures var s := LoginUser(env, db, email, password, now);
      RefreshTokenProcess(env, s.db, Some(s.result.value.tokens.refreshToken), now)
        == Ok(env.sign(s.result.value.user.id, env.accessSecret, now))
  {
  }

  /** After logout no token of that user is honoured, whatever it is. */
  lemma LogoutRevokesRefresh(env: Env, db: Db, id: UserId, cookie: Option<Token>, now: int)
    requires Presented(cookie) && env.verify(cookie.value, env.refreshSecret, now) == Some(id)
    ensures RefreshTokenProcess(env, LogoutUser(db, id), cookie, now) == Err(RefreshTokenNotMatch)
  {
  }

  /** Log in, log out, then present the refresh token the login returned: it is
      refused with REFRESH_TOKEN_NOT_MATCH. */
  lemma LoginLogoutRefresh(env: Env, db: Db, email: string, password: string, now: int)
    requires JwtSound(env)
    requires LoginUser(env, db, email, password, now).result.Ok?
    ensures var s := LoginUser(env, db, email, password, now);
      var out := LogoutUser(s.db, s.result.value.user.id);
      RefreshTokenProcess(env, out, Some(s.result.value.tokens.refreshToken), now) == Err(RefreshTokenNotMatch)
  {
  }

  /** Logging out twice is the same as logging out once. */
  lemma LogoutIdempotent(db: Db, id: UserId)
    ensures LogoutUser(LogoutUser(db, id), id) == LogoutUser(db, id)
  {
  }

  /** A second login rotates the slot: the first login's refresh token is no
      longer honoured for that user, unless both logins drew the same token. */
  lemma ReloginRevokesPreviousToken(env: Env, db: Db, email: string, p1: string, p2: string,
                                    now1: int, now2: int, now3: int)
    requires db.Valid()
    requires LoginUser(env, db, email, p1, now1).result.Ok?
    requires LoginUser(env, LoginUser(env, db, email, p1, now1).db, email, p2, now2).result.Ok?
    ensures var s1 := LoginUser(env, db, email, p1, now1);
      var s2 := LoginUser(env, s1.db, email, p2, now2);
      var t1 := s1.result.value.tokens.refreshToken;
      && s2.result.value.user.id == s1.result.value.user.id
      && (t1 != s2.result.value.tokens.refreshToken && t1 != "" &&
          env.verify(t1, env.refreshSecret, now3) == Some(s1.result.value.user.id) ==>
            RefreshTokenProcess(env, s2.db, Some(t1), now3) == Err(RefreshTokenNotMatch))
  {
  }

  /** deleteUser followed by logoutUser on the same id leaves what deleteUser left. */
  lemma DeleteThenLogoutIsNoop(db: Db, id: UserId)
    ensures LogoutUser(DeleteUser(db, id), id) == DeleteUser(db, id)
  {
  }

  /** A deleted user's refresh tokens are refused. */
  lemma DeletedUserCannotRefresh(env: Env, db: Db, id: UserId, cookie: Option<Token>, now: int)
    requires Presented(cookie) && env.verify(cookie.value, env.refreshSecret, now) == Some(id)
    ensures RefreshTokenProcess(env, DeleteUser(db, id), cookie, now) == Err(RefreshTokenNotMatch)
  {
  }

  /** A deleted user can no longer log in with any password. */
  lemma DeletedUserCannotLogin(env: Env, db: Db, id: UserId, password: string, now: int)
    requires db.Valid() && id in db.users
    ensures LoginUser(env, DeleteUser(db, id), db.users[id].email, password, now).result == Err(InvalidCredentials)
  {
  }

  /** An update by someone who is neither an admin nor the target fails with
      NOT_AUTHORIZATION whatever it asks for, and changes nothing. */
  lemma NonAdminCannotUpdateOthers(db: Db, targetId: UserId, patch: Patch, actingId: UserId, actingRole: string)
    requires targetId in db.users && actingRole != AdminRole && actingId != targetId
    ensures UpdateUser(db, targetId, patch, actingId, actingRole) == Step(Err(NotAuthorization), db)
  {
  }

  /** Only an admin changes a role. */
  lemma OnlyAdminChangesRole(db: Db, targetId: UserId, patch: Patch, actingId: UserId, actingRole: string)
    requires actingRole != AdminRole
    ensures var s := UpdateUser(db, targetId, patch, actingId, actingRole);
      forall id :: id in s.db.users ==> id in db.users && s.db.users[id].role == db.users[id].role
  {
  }

  /** An update touches neither credentials nor sessions: every refresh answers
      as it did before. */
  lemma UpdateKeepsSessions(env: Env, db: Db, targetId: UserId, patch: Patch, actingId: UserId,
                            actingRole: string, cookie: Option<Token>, now: int)
    ensures RefreshTokenProcess(env, UpdateUser(db, targetId, patch, actingId, actingRole).db, cookie, now)
         == RefreshTokenProcess(env, db, cookie, now)
  {
  }

  /** Whether the mail goes out does not change what forgotPassword stores or
      whether it succeeds. */
  lemma ForgotPasswordIgnoresSendFailure(env: Env, db: Db, email: string, token: string, now: int)
    ensures ForgotPassword(env, db, email, token, now, true).db == ForgotPassword(env, db, email, token, now, false).db
    ensures ForgotPassword(env, db, email, token, now, true).result.Ok?
        <==> ForgotPassword(env, db, email, token, now, false).result.Ok?
  {
  }

  /** The token forgotPassword stores resets the password at any time before
      its expiry. */
  lemma ForgotThenReset(env: Env, db: Db, email: string, token: string, now: int, sendFails: bool,
                        newPassword: string, salt: string, later: int)
    requires ForgotPassword(env, db, email, token, now, sendFails).result.Ok?
    requires later < now + ResetTokenLifetime
    ensures ResetPassword(env, ForgotPassword(env, db, email, token, now, sendFails).db,
                          token, newPassword, salt, later).result.Ok?
  {
    var s := ForgotPassword(env, db, email, token, now, sendFails);
    var id := FindByEmail(db.users, email).value;
    assert HoldsResetToken(s.db.users[id], env.sha256(token), later);
  }

  /** Once the ten minutes have passed the stored token is refused, even though
      its digest still matches, as long as no other record holds the same digest. */
  lemma ForgotThenLateReset(env: Env, db: Db, email: string, token: string, now: int, sendFails: bool,
                            newPassword: string, salt: string, later: int)
    requires ForgotPassword(env, db, email, token, now, sendFails).result.Ok?
    requires later >= now + ResetTokenLifetime
    requires forall id :: id in db.users ==> db.users[id].resetHash != Some(env.sha256(token))
    ensures ResetPassword(env, ForgotPassword(env, db, email, token, now, sendFails).db,
                          token, newPassword, salt, later).result == Err(TokenInvalidOrExpired)
  {
  }

  /** A reset token is consumed by its first use: when one record holds its
      digest, a second reset with the same token fails. */
  lemma ResetTokenSingleUse(env: Env, db: Db, token: string, p1: string, salt1: string, now1: int,
                            p2: string, salt2: string, now2: int)
    requires ResetPassword(env, db, token, p1, salt1, now1).result.Ok?
    requires forall a, b ::
      (a in db.users && b in db.users &&
       db.users[a].resetHash == Some(env.sha256(token)) && db.users[b].resetHash == Some(env.sha256(token))) ==> a == b
    ensures ResetPassword(env, ResetPassword(env, db, token, p1, salt1, now1).db, token, p2, salt2, now2).result
         == Err(TokenInvalidOrExpired)
  {
  }

  /** After a reset the new password logs the user in. */
  lemma ResetThenLogin(env: Env, db: Db, token: string, newPassword: string, salt: string, now: int, later: int)
    requires PasswordCheckSound(env)
    requires db.Valid()
    requires ResetPassword(env, db, token, newPassword, salt, now).result.Ok?
    ensures var id := FindByResetHash(db.users, env.sha256(token), now).value;
      var s := LoginUser(env, ResetPassword(env, db, token, newPassword, salt, now).db,
                         db.users[id].email, newPassword, later);
      s.result.Ok? && s.result.value.user.id == id
  {
    var id := FindByResetHash(db.users, env.sha256(token), now).value;
    var after := ResetPassword(env, db, token, newPassword, salt, now).db;
    assert after.Valid();
    assert after.users[id].email == db.users[id].email;
    assert env.comparePassword(newPassword, after.users[id].passwordHash);
  }

  /** A password reset does not end the sessions already open: every refresh
      answers as it did before. */
  lemma ResetKeepsSessions(env: Env, db: Db, token: string, newPassword: string, salt: string,
                           now: int, cookie: Option<Token>, later: int)
    ensures RefreshTokenProcess(env, ResetPassword(env, db, token, newPassword, salt, now).db, cookie, later)
         == RefreshTokenProcess(env, db, cookie, later)
  {
  }
}
