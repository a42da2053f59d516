/** `POST /login`: authenticate, then issue an access and a refresh token for the same identity. */
module Login {
  import opened Wrappers
  import opened Errors
  import opened Models
  import opened Schemas
  import opened Crud
  import opened Jwt
  import opened Config
  import opened Externals
  import opened Security

  /** The body of a successful login response. */
  datatype TokenPair = TokenPair(accessToken: Token, refreshToken: Token, tokenType: string)

  function Login(store: Store, user: UserLogin, cfg: Settings, prims: Primitives, now: int): (r: Result<TokenPair, Error>)
    reads store
    requires store.Valid()
    ensures r.Err? <==> AuthenticateUser(store, user.email, user.password, prims).None?
    ensures r.Err? ==> r.error == Status(Unauthorized, LoginRejected)
    ensures r.Ok? ==>
      var u := AuthenticateUser(store, user.email, user.password, prims).value;
      var access := r.value.accessToken;
      var refresh := r.value.refreshToken;
      && r.value.tokenType == Bearer
      && access.Signed? && refresh.Signed?
      && access.claims.Keys == refresh.claims.Keys == {"sub", "id", "role", "exp", "type"}
      && (forall k :: k in {"sub", "id", "role"} ==> access.claims[k] == refresh.claims[k] == IdentityClaims(u)[k])
      && access.claims["type"] == Str(AccessKind) && refresh.claims["type"] == Str(RefreshKind)
      && access.claims["exp"] == Int(now + Minutes(cfg.accessTokenExpireMinutes))
      && refresh.claims["exp"] == Int(now + Minutes(cfg.refreshTokenExpireMinutes))
  {
    match AuthenticateUser(store, user.email, user.password, prims)
    case None => Err(Status(Unauthorized, LoginRejected))
    case Some(userData) =>
      var accessTokenExpires := Minutes(cfg.accessTokenExpireMinutes);
      var refreshTokenExpires := Minutes(cfg.refreshTokenExpireMinutes);
      var accessToken := CreateAccessToken(IdentityClaims(userData), accessTokenExpires, now, cfg);
      var refreshToken := CreateRefreshToken(IdentityClaims(userData), refreshTokenExpires, now, cfg);
      Ok(TokenPair(accessToken, refreshToken, Bearer))
  }

  /**
   * The pair a login issues is used as designed: while it lives, the access token
   * authenticates the user who logged in and is refused by the refresh exchange,
   * and the refresh token is refused as an access token but exchanged for a new
   * access token of the same user.
   */
  lemma LoginTokensServeTheirPurpose(store: Store, user: UserLogin, cfg: Settings, prims: Primitives,
                                       now: int, later: int)
    requires store.Valid()
    requires Login(store, user, cfg, prims, now).Ok?
    ensures var pair := Login(store, user, cfg, prims, now).value;
            var u := AuthenticateUser(store, user.email, user.password, prims).value;
            && (later < now + Minutes(cfg.accessTokenExpireMinutes) ==>
                  && GetCurrentUser(store, pair.accessToken, cfg, later) == Ok(u)
                  && RefreshToken(store, pair.accessToken, cfg, later) == Err(Status(Unauthorized, InvalidTokenType)))
            && (later < now + Minutes(cfg.refreshTokenExpireMinutes) ==>
                  && GetCurrentUser(store, pair.refreshToken, cfg, later) == Err(Status(Unauthorized, InvalidTokenType))
                  && RefreshToken(store, pair.refreshToken, cfg, later).Ok?
                  && RefreshToken(store, pair.refreshToken, cfg, later).value.accessToken.claims["sub"] == Str(u.email))
  {
    var u := AuthenticateUser(store, user.email, user.password, prims).value;
    IssuedAccessTokenResolves(store, u, now, Minutes(cfg.accessTokenExpireMinutes), later, cfg);
  }

  /**
   * Exchanging the login's refresh token while it lives yields an access token
   * that authenticates the user who logged in for the access lifetime counted
   * from the exchange, and is refused with 401 from then on.
   */
  lemma RefreshGrantsAccess(store: Store, user: UserLogin, cfg: Settings, prims: Primitives,
                            now: int, later: int, use: int)
    requires store.Valid()
    requires Login(store, user, cfg, prims, now).Ok?
    requires later < now + Minutes(cfg.refreshTokenExpireMinutes)
    ensures var refresh := Login(store, user, cfg, prims, now).value.refreshToken;
            var u := AuthenticateUser(store, user.email, user.password, prims).value;
            && RefreshToken(store, refresh, cfg, later).Ok?
            && (later <= use < later + Minutes(cfg.accessTokenExpireMinutes) ==>
                  GetCurrentUser(store, RefreshToken(store, refresh, cfg, later).value.accessToken, cfg, use) == Ok(u))
            && (use >= later + Minutes(cfg.accessTokenExpireMinutes) ==>
                  GetCurrentUser(store, RefreshToken(store, refresh, cfg, later).value.accessToken, cfg, use)
                  == Err(Status(Unauthorized, InvalidCredentials)))
  {
    var u := AuthenticateUser(store, user.email, user.password, prims).value;
    var refresh := CreateRefreshToken(IdentityClaims(u), Minutes(cfg.refreshTokenExpireMinutes), now, cfg);
    assert Login(store, user, cfg, prims, now).value.refreshToken == refresh;
    assert DecodeWith(refresh, cfg, later) == Some(refresh.claims);
    assert store.GetUserByEmail(u.email) == Some(u);
    RefreshedTokenResolves(store, refresh, cfg, later, use);
  }
}
