/** Shared vocabulary: optional values, identifiers, and the library calls the
    authentication service makes, kept abstract as function values. */
module Base {

  datatype Option<+T> = None | Some(value: T)

  /** Record identifiers. The store hands them out in insertion order. */
  type UserId = nat
  type Token = string
  type Hash = string

  /** The collaborators the service reaches through libraries and configuration.
      - `sign(id, secret, now)`: a signed token whose payload is `{ id }`; the
        lifetime configured for that secret is folded into the function.
      - `verify(token, secret, now)`: the payload's id, or None when the
        signature or the expiry check rejects the token.
      - `hashPassword(plain, salt)`: the one-way password hash the user schema
        stores on save; `salt` stands for the hash's randomness.
      - `comparePassword(plain, hash)`: the password check on a record.
      - `sha256(token)`: the hex digest used for password-reset tokens.
      - the two signing secrets and the role the user schema gives by default. */
  datatype Env = Env(
    sign: (UserId, string, int) -> Token,
    verify: (Token, string, int) -> Option<UserId>,
    hashPassword: (string, string) -> Hash,
    comparePassword: (string, Hash) -> bool,
    sha256: string -> Hash,
    accessSecret: string,
    refreshSecret: string,
    defaultRole: string)

  /** What a signing library promises: a token verifies, under the secret it was
      signed with and at the moment of signing, as the id it was issued for; and
      it is never the empty string. */
  ghost predicate JwtSound(env: Env) {
    forall id: UserId, secret: string, now: int {:trigger env.sign(id, secret, now)} ::
      env.sign(id, secret, now) != "" &&
      env.verify(env.sign(id, secret, now), secret, now) == Some(id)
  }

  /** What a password-hashing library promises: a password matches its own hash. */
  ghost predicate PasswordCheckSound(env: Env) {
    forall plain: string, salt: string {:trigger env.hashPassword(plain, salt)} ::
      env.comparePassword(plain, env.hashPassword(plain, salt))
  }

  /** Every non-empty set of ids has a least element. */
  lemma {:induction false} Least(ids: set<UserId>) returns (least: UserId)
    requires ids != {}
    ensures least in ids && forall j :: j in ids ==> least <= j
  {
    var x :| x in ids;
    var rest := ids - {x};
    assert forall j :: j in ids ==> j == x || j in rest;
    if rest == {} {
      least := x;
    } else {
      var m := Least(rest);
      least := if x < m then x else m;
    }
  }

  /** The same fact as an existence claim, for use inside an expression. */
  lemma LeastExists(ids: set<UserId>)
    requires ids != {}
    ensures exists m :: m in ids && forall j :: j in ids ==> m <= j
  {
    var m := Least(ids);
  }

  /** The least of a set of ids. The document store does not promise which
      record `findOne` returns when several match; the model fixes this one as
      its choice. */
  function Earliest(ids: set<UserId>): (r: Option<UserId>)
    ensures r.None? <==> ids == {}
    ensures r.Some? ==> r.value in ids && forall j :: j in ids ==> r.value <= j
  {
    if ids == {} then None
    else
      LeastExists(ids);
      Some(var m :| m in ids && forall j :: j in ids ==> m <= j; m)
  }
}
