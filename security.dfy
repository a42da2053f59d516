/**
 * Token issue, password check and the two token-consuming operations: resolving
 * the caller of a protected endpoint and exchanging a refresh token.
 */
module Security {
  import opened Wrappers
  import opened Errors
  import opened Models
  import opened Crud
  import opened Jwt
  import opened Config
  import opened Externals

  const AccessKind := "access"
  const RefreshKind := "refresh"
  const Bearer := "bearer"

  /** The identity claims both kinds of token carry: `{"sub": email, "id": id, "role": role}`. */
  function IdentityClaims(u: User): Claims
  {
    map["sub" := Str(u.email), "id" := Int(u.id), "role" := Str(u.role)]
  }

  /** `jwt.decode` with the configured key and algorithm. */
  function DecodeWith(t: Token, cfg: Settings, now: int): Option<Claims>
  {
    Decode(t, cfg.secretKey, cfg.algorithm, now)
  }

  /** The token decodes now and its `type` claim is `kind`. */
  predicate DecodesAs(t: Token, kind: string, cfg: Settings, now: int)
  {
    DecodeWith(t, cfg, now).Some? && ClaimGet(DecodeWith(t, cfg, now).value, "type") == Str(kind)
  }

  /**
   * `create_access_token`: a copy of `data` with `exp = now + expiresDelta` and
   * `type = "access"` added, signed with the configured key. It decodes to that
   * claim set until the expiry instant and never after.
   */
  function CreateAccessToken(data: Claims, expiresDelta: int, now: int, cfg: Settings): (t: Token)
    ensures t.Signed? && t.claims.Keys == data.Keys + {"exp", "type"}
    ensures t.claims["exp"] == Int(now + expiresDelta) && t.claims["type"] == Str(AccessKind)
    ensures forall k :: k in data && k != "exp" && k != "type" ==> t.claims[k] == data[k]
    ensures forall later :: DecodeWith(t, cfg, later) == if later < now + expiresDelta then Some(t.claims) else None
  {
    Encode(data["exp" := Int(now + expiresDelta)]["type" := Str(AccessKind)], cfg.secretKey, cfg.algorithm)
  }

  /** `create_refresh_token`: as `CreateAccessToken`, with `type = "refresh"`. */
  function CreateRefreshToken(data: Claims, expiresDelta: int, now: int, cfg: Settings): (t: Token)
    ensures t.Signed? && t.claims.Keys == data.Keys + {"exp", "type"}
    ensures t.claims["exp"] == Int(now + expiresDelta) && t.claims["type"] == Str(RefreshKind)
    ensures forall k :: k in data && k != "exp" && k != "type" ==> t.claims[k] == data[k]
    ensures forall later :: DecodeWith(t, cfg, later) == if later < now + expiresDelta then Some(t.claims) else None
  {
    Encode(data["exp" := Int(now + expiresDelta)]["type" := Str(RefreshKind)], cfg.secretKey, cfg.algorithm)
  }

  function VerifyPassword(plain: string, hashed: string, prims: Primitives): bool
  {
    prims.bcryptVerify(plain, hashed)
  }

  /**
   * `authenticate_user`: the stored user with this email if the password matches
   * its hash; an unknown email and a wrong password give the same `None` (`False`).
   */
  function AuthenticateUser(store: Store, email: string, password: string, prims: Primitives): (r: Option<User>)
    reads store
    requires store.Valid()
    ensures r.Some? <==> exists id :: id in store.users && store.users[id].email == email
                                      && VerifyPassword(password, store.users[id].hashedPassword, prims)
    ensures r.Some? ==> r.value.email == email && r.value.id in store.users && store.users[r.value.id] == r.value
  {
    var user := store.GetUserByEmail(email);
    if user.None? || !VerifyPassword(password, user.value.hashedPassword, prims) then None else user
  }

  /**
   * `get_current_user`: the stored user named by the `sub` claim of a valid
   * access token. Every refusal is a 401, except a non-string `sub`, which the
   * database driver refuses when it is bound as an email.
   */
  function GetCurrentUser(store: Store, credentials: Token, cfg: Settings, now: int): (r: Result<User, Error>)
    reads store
    requires store.Valid()
    ensures DecodeWith(credentials, cfg, now).None? ==> r == Err(Status(Unauthorized, InvalidCredentials))
    ensures DecodeWith(credentials, cfg, now).Some? && !DecodesAs(credentials, AccessKind, cfg, now)
            ==> r == Err(Status(Unauthorized, InvalidTokenType))
    ensures r.Ok? <==> DecodesAs(credentials, AccessKind, cfg, now)
                       && ClaimGet(DecodeWith(credentials, cfg, now).value, "sub").Str?
                       && exists id :: id in store.users
                                       && Str(store.users[id].email) == ClaimGet(DecodeWith(credentials, cfg, now).value, "sub")
    ensures r.Ok? ==> Str(r.value.email) == ClaimGet(DecodeWith(credentials, cfg, now).value, "sub")
    ensures r.Ok? ==> r.value.id in store.users && store.users[r.value.id] == r.value
    ensures r.Err? ==> r.error == Unhandled(DataError) || (r.error.Status? && r.error.code == Unauthorized)
    ensures DecodesAs(credentials, AccessKind, cfg, now) ==>
      var sub := ClaimGet(DecodeWith(credentials, cfg, now).value, "sub");
      && (sub.Null? ==> r == Err(Status(Unauthorized, InvalidCredentials)))
      && (sub.Int? ==> r == Err(Unhandled(DataError)))
      && (sub.Str? && store.GetUserByEmail(sub.s).None? ==> r == Err(Status(Unauthorized, UserNotFound)))
      && (sub.Str? && store.GetUserByEmail(sub.s).Some? ==> r == Ok(store.GetUserByEmail(sub.s).value))
  {
    match DecodeWith(credentials, cfg, now)
    case None => Err(Status(Unauthorized, InvalidCredentials))
    case Some(payload) =>
      if ClaimGet(payload, "type") != Str(AccessKind) then Err(Status(Unauthorized, InvalidTokenType))
      else
        match ClaimGet(payload, "sub")
        case Null => Err(Status(Unauthorized, InvalidCredentials))
        case Int(_) => Err(Unhandled(DataError))
        case Str(email) =>
          match store.GetUserByEmail(email)
          case None => Err(Status(Unauthorized, UserNotFound))
          case Some(user) => Ok(user)
  }

  /** The body of a successful `/refresh_token` response. */
  datatype AccessGrant = AccessGrant(accessToken: Token, tokenType: string)

  /**
   * `refresh_token`: for a valid refresh token, a new access token carrying the
   * stored user's current email, id and role, valid for the access lifetime.
   */
  function RefreshToken(store: Store, refreshTokenStr: Token, cfg: Settings, now: int): (r: Result<AccessGrant, Error>)
    reads store
    requires store.Valid()
    ensures DecodeWith(refreshTokenStr, cfg, now).None? ==> r == Err(Status(Unauthorized, InvalidCredentials))
    ensures DecodeWith(refreshTokenStr, cfg, now).Some? && !DecodesAs(refreshTokenStr, RefreshKind, cfg, now)
            ==> r == Err(Status(Unauthorized, InvalidTokenType))
    ensures r.Ok? <==> DecodesAs(refreshTokenStr, RefreshKind, cfg, now)
                       && ClaimGet(DecodeWith(refreshTokenStr, cfg, now).value, "sub").Str?
                       && exists id :: id in store.users
                                       && Str(store.users[id].email) == ClaimGet(DecodeWith(refreshTokenStr, cfg, now).value, "sub")
    ensures r.Ok? ==>
      var u := store.GetUserByEmail(ClaimGet(DecodeWith(refreshTokenStr, cfg, now).value, "sub").s).value;
      && r.value.tokenType == Bearer
      && r.value.accessToken.Signed?
      && r.value.accessToken.claims == map["sub" := Str(u.email), "id" := Int(u.id), "role" := Str(u.role),
                                           "exp" := Int(now + Minutes(cfg.accessTokenExpireMinutes)),
                                           "type" := Str(AccessKind)]
    ensures r.Ok? ==>
      forall later :: DecodeWith(r.value.accessToken, cfg, later)
                      == if later < now + Minutes(cfg.accessTokenExpireMinutes) then Some(r.value.accessToken.claims) else None
    ensures r.Err? ==> r.error == Unhandled(DataError) || (r.error.Status? && r.error.code == Unauthorized)
    ensures DecodesAs(refreshTokenStr, RefreshKind, cfg, now) ==>
      var sub := ClaimGet(DecodeWith(refreshTokenStr, cfg, now).value, "sub");
      && (sub.Null? ==> r == Err(Status(Unauthorized, InvalidCredentials)))
      && (sub.Int? ==> r == Err(Unhandled(DataError)))
      && (sub.Str? && store.GetUserByEmail(sub.s).None? ==> r == Err(Status(Unauthorized, UserNotFound)))
  {
    match DecodeWith(refreshTokenStr, cfg, now)
    case None => Err(Status(Unauthorized, InvalidCredentials))
    case Some(payload) =>
      if ClaimGet(payload, "type") != Str(RefreshKind) then Err(Status(Unauthorized, InvalidTokenType))
      else
        match ClaimGet(payload, "sub")
        case Null => Err(Status(Unauthorized, InvalidCredentials))
        case Int(_) => Err(Unhandled(DataError))
        case Str(email) =>
          match store.GetUserByEmail(email)
          case None => Err(Status(Unauthorized, UserNotFound))
          case Some(user) =>
            var accessToken := CreateAccessToken(IdentityClaims(user), Minutes(cfg.accessTokenExpireMinutes), now, cfg);
            Ok(AccessGrant(accessToken, Bearer))
  }

  /** A refresh token is never accepted where an access token is required. */
  lemma RefreshTokenNeverAuthenticates(store: Store, t: Token, cfg: Settings, now: int)
    requires store.Valid()
    requires DecodesAs(t, RefreshKind, cfg, now)
    ensures GetCurrentUser(store, t, cfg, now) == Err(Status(Unauthorized, InvalidTokenType))
  {
  }

  /** A signed token whose `exp` has passed yields 401 at both token-consuming operations. */
  lemma ExpiredTokenRejected(store: Store, t: Token, cfg: Settings, now: int)
    requires store.Valid()
    requires t.Signed? && "exp" in t.claims && t.claims["exp"].Int? && t.claims["exp"].i <= now
    ensures GetCurrentUser(store, t, cfg, now) == Err(Status(Unauthorized, InvalidCredentials))
    ensures RefreshToken(store, t, cfg, now) == Err(Status(Unauthorized, InvalidCredentials))
  {
  }

  /**
   * The access token a refresh exchange returns at `now` resolves to the stored
   * user the refresh token names until `now` plus the access lifetime, and to
   * 401 from then on.
   */
  lemma RefreshedTokenResolves(store: Store, t: Token, cfg: Settings, now: int, later: int)
    requires store.Valid()
    requires RefreshToken(store, t, cfg, now).Ok?
    ensures var u := store.GetUserByEmail(ClaimGet(DecodeWith(t, cfg, now).value, "sub").s).value;
            var access := RefreshToken(store, t, cfg, now).value.accessToken;
            && (later < now + Minutes(cfg.accessTokenExpireMinutes) ==> GetCurrentUser(store, access, cfg, later) == Ok(u))
            && (later >= now + Minutes(cfg.accessTokenExpireMinutes) ==>
                  GetCurrentUser(store, access, cfg, later) == Err(Status(Unauthorized, InvalidCredentials)))
  {
    var u := store.GetUserByEmail(ClaimGet(DecodeWith(t, cfg, now).value, "sub").s).value;
    IssuedAccessTokenResolves(store, u, now, Minutes(cfg.accessTokenExpireMinutes), later, cfg);
  }

  /**
   * An access token issued for a stored user resolves to that user for as long
   * as it lives, and to 401 once it has expired.
   */
  lemma IssuedAccessTokenResolves(store: Store, u: User, issuedAt: int, ttl: int, later: int, cfg: Settings)
    requires store.Valid() && u.id in store.users && store.users[u.id] == u
    ensures later < issuedAt + ttl ==>
              GetCurrentUser(store, CreateAccessToken(IdentityClaims(u), ttl, issuedAt, cfg), cfg, later) == Ok(u)
    ensures later >= issuedAt + ttl ==>
              GetCurrentUser(store, CreateAccessToken(IdentityClaims(u), ttl, issuedAt, cfg), cfg, later)
              == Err(Status(Unauthorized, InvalidCredentials))
  {
  }
}
