/** The authentication endpoints as they run: repositories changed one step at a time. Each handler is proved
    to take the server from one abstract state to the next. */
module AuthService {
  import opened Common
  import opened RefreshTokens
  import opened AuthServer

  class InMemoryUserRepository {
    var byId: map<string, User>
    var byEmail: map<string, string>

    constructor ()
      ensures byId == map[] && byEmail == map[]
    {
      byId, byEmail := map[], map[];
    }

    method Create(id: string, email: string, passwordHash: string, createdAt: Instant) returns (record: User)
      modifies this
      ensures record == User(id, NormalizeEmail(email), passwordHash, createdAt)
      ensures byId == old(byId)[id := record]
      ensures byEmail == old(byEmail)[NormalizeEmail(email) := id]
    {
      var normalized := NormalizeEmail(email);
      record := User(id, normalized, passwordHash, createdAt);
      byId := byId[record.id := record];
      byEmail := byEmail[normalized := record.id];
    }

    method GetById(id: string) returns (user: Option<User>)
      ensures user == if id in byId then Some(byId[id]) else None
    {
      user := if id in byId then Some(byId[id]) else None;
    }

    method GetByEmail(email: string) returns (user: Option<User>)
      ensures user.Some? <==> NormalizeEmail(email) in byEmail && byEmail[NormalizeEmail(email)] in byId
      ensures user.Some? ==> user.value == byId[byEmail[NormalizeEmail(email)]]
    {
      var key := NormalizeEmail(email);
      if key !in byEmail {
        return None;
      }
      user := GetById(byEmail[key]);
    }

    method ExistsByEmail(email: string) returns (taken: bool)
      ensures taken <==> NormalizeEmail(email) in byEmail
    {
      taken := NormalizeEmail(email) in byEmail;
    }
  }

  /** The JWT library with the server's secret: the strings it has signed, each with its claims. */
  class TokenSigner {
    var issued: map<string, Claims>

    constructor ()
      ensures issued == map[]
    {
      issued := map[];
    }

    method Encode(token: string, claims: Claims)
      modifies this
      ensures issued == old(issued)[token := claims]
    {
      issued := issued[token := claims];
    }
  }

  class AuthService {
    const cfg: Config
    const users: InMemoryUserRepository
    const tokens: InMemoryRefreshTokenRepository
    const signer: TokenSigner

    ghost function View(): Server
      reads users, tokens, signer
    {
      Server(users.byId, users.byEmail, tokens.byJti, signer.issued)
    }

    constructor (cfg: Config)
      ensures this.cfg == cfg && View() == EMPTY_SERVER
      ensures fresh(users) && fresh(tokens) && fresh(signer)
    {
      this.cfg := cfg;
      this.users := new InMemoryUserRepository();
      this.tokens := new InMemoryRefreshTokenRepository();
      this.signer := new TokenSigner();
    }

    method Issue(user: User, mint: Mint) returns (access: string, refresh: string)
      modifies tokens, signer
      ensures View() == old(IssueTokens(cfg, View(), user.id, mint))
      ensures access == mint.accessToken && refresh == mint.refreshToken
    {
      signer.Encode(mint.accessToken, AccessClaims(cfg, user.id, mint.accessJti, mint.accessAt));
      signer.Encode(mint.refreshToken, RefreshClaims(cfg, user.id, mint.refreshJti, mint.refreshAt));
      var _ := tokens.Create(mint.rowId, user.id, mint.refreshJti, RefreshExpiry(cfg, mint.refreshAt), mint.createdAt);
      return mint.accessToken, mint.refreshToken;
    }

    method RegisterHandler(email: string, passwordHash: string, userId: string, createdAt: Instant, mint: Mint)
      returns (resp: Response)
      modifies users, tokens, signer
      ensures (View(), resp) == old(Handle(cfg, View(), Register(email, passwordHash, userId, createdAt, mint)))
    {
      var taken := users.ExistsByEmail(email);
      if taken {
        return Rejected(409, EmailTaken);
      }
      var user := users.Create(userId, email, passwordHash, createdAt);
      var access, refresh := Issue(user, mint);
      resp := TokenPair(201, access, refresh, Some(user.id));
    }

    method LoginHandler(email: string, password: string, mint: Mint) returns (resp: Response)
      modifies tokens, signer
      ensures (View(), resp) == old(Handle(cfg, View(), Login(email, password, mint)))
    {
      var user := users.GetByEmail(email);
      if user.None? {
        return Rejected(401, InvalidCredentials);
      }
      if !cfg.verify(user.value.passwordHash, password) {
        return Rejected(401, InvalidCredentials);
      }
      var access, refresh := Issue(user.value, mint);
      resp := TokenPair(200, access, refresh, Some(user.value.id));
    }

    method RefreshHandler(token: string, now: Instant, revokedAt: Instant, mint: Mint) returns (resp: Response)
      modifies tokens, signer
      ensures (View(), resp) == old(Handle(cfg, View(), Rotate(token, now, revokedAt, mint)))
    {
      var claims := DecodeToken(signer.issued, token, Refresh, now);
      if claims.Err? {
        return Rejected(401, claims.error);
      }
      var jti := claims.value.jti;
      var row := tokens.GetByJti(jti);
      if row.None? || row.value.revokedAt.Some? {
        return Rejected(401, TokenInvalid);
      }
      var _ := tokens.Revoke(jti, revokedAt);
      var user := users.GetById(row.value.userId);
      if user.None? {
        return Rejected(401, TokenInvalid);
      }
      var access, refresh := Issue(user.value, mint);
      resp := TokenPair(200, access, refresh, None);
    }

    method LogoutHandler(token: string, now: Instant, revokedAt: Instant) returns (resp: Response)
      modifies tokens
      ensures (View(), resp) == old(Handle(cfg, View(), Logout(token, now, revokedAt)))
    {
      var claims := DecodeToken(signer.issued, token, Refresh, now);
      if claims.Err? {
        return NoContent;
      }
      var _ := tokens.Revoke(claims.value.jti, revokedAt);
      resp := NoContent;
    }

    /** The `require_auth` gate in front of every protected endpoint. */
    method RequireAuth(header: string, now: Instant) returns (resp: Response)
      ensures resp == Guard(View(), header, now)
    {
      if header == "" || !(BEARER <= header) {
        return Rejected(401, AuthRequired);
      }
      var token := Strip(header[|BEARER|..]);
      if token == "" {
        return Rejected(401, AuthRequired);
      }
      var claims := DecodeToken(signer.issued, token, Access, now);
      if claims.Err? {
        return Rejected(401, claims.error);
      }
      var user := users.GetById(claims.value.sub);
      if user.None? {
        return Rejected(401, TokenInvalid);
      }
      resp := Authenticated(user.value.id);
    }
  }
}
