/** The authentication endpoints, as a transition function on the server's state. Ids, clock readings, password
    hashes and signed token strings are inputs of each request; the password verifier is part of the
    configuration. */
module AuthServer {
  import opened Common
  import opened RefreshTokens

  // -------------------------------------------------------------------------
  // Signed tokens
  // -------------------------------------------------------------------------

  datatype TokenKind = Access | Refresh

  datatype Claims = Claims(sub: string, iat: int, exp: int, jti: string, kind: TokenKind)

  datatype AuthCode = TokenExpired | TokenInvalid | EmailTaken | InvalidCredentials | AuthRequired

  /** `verify(hash, password)` is the password hasher's check. */
  datatype Config = Config(accessTtlSeconds: nat, refreshTtlSeconds: nat, verify: (string, string) -> bool)

  /** `int(t.timestamp())`: truncation, which is the floor after the epoch. */
  function Seconds(t: Instant): int {
    t.Floor
  }

  function AccessClaims(cfg: Config, userId: string, jti: string, now: Instant): Claims {
    Claims(userId, Seconds(now), Seconds(now + cfg.accessTtlSeconds as real), jti, Access)
  }

  function RefreshClaims(cfg: Config, userId: string, jti: string, now: Instant): Claims {
    Claims(userId, Seconds(now), Seconds(RefreshExpiry(cfg, now)), jti, Refresh)
  }

  function RefreshExpiry(cfg: Config, now: Instant): Instant {
    now + cfg.refreshTtlSeconds as real
  }

  /** Verification of a token string: only strings this server signed have claims at all. */
  function DecodeToken(issued: map<string, Claims>, token: string, expected: TokenKind, now: Instant)
    : Result<Claims, AuthCode>
  {
    if token !in issued then Err(TokenInvalid)
    else
      var claims := issued[token];
      if claims.iat as real > now then Err(TokenInvalid)
      else if claims.exp as real <= now then Err(TokenExpired)
      else if claims.kind != expected then Err(TokenInvalid)
      else Ok(claims)
  }

  // -------------------------------------------------------------------------
  // State, requests and responses
  // -------------------------------------------------------------------------

  datatype User = User(id: string, email: string, passwordHash: string, createdAt: Instant)

  datatype Server = Server(
    users: map<string, User>,
    emails: map<string, string>,
    rows: Rows,
    issued: map<string, Claims>)

  const EMPTY_SERVER := Server(map[], map[], map[], map[])

  function NormalizeEmail(email: string): string {
    Lower(Strip(email))
  }

  /** What one call of `_issue_tokens` draws from the clock, uuid4 and the signer. */
  datatype Mint = Mint(
    accessToken: string, accessJti: string, accessAt: Instant,
    refreshToken: string, refreshJti: string, refreshAt: Instant,
    rowId: string, createdAt: Instant)

  datatype Request =
    | Register(email: string, passwordHash: string, userId: string, createdAt: Instant, mint: Mint)
    | Login(email: string, password: string, mint: Mint)
    | Rotate(token: string, now: Instant, revokedAt: Instant, mint: Mint)
    | Logout(token: string, now: Instant, revokedAt: Instant)
    | Authenticate(token: string, now: Instant)

  datatype Response =
    | TokenPair(status: int, access: string, refresh: string, user: Option<string>)
    | NoContent
    | Authenticated(userId: string)
    | Rejected(status: int, code: AuthCode)

  // -------------------------------------------------------------------------
  // The endpoints
  // -------------------------------------------------------------------------

  function IssueTokens(cfg: Config, s: Server, userId: string, mint: Mint): Server {
    var row := RefreshTokenRecord(mint.rowId, userId, mint.refreshJti, RefreshExpiry(cfg, mint.refreshAt), None,
                                  mint.createdAt);
    s.(rows := s.rows[mint.refreshJti := row],
       issued := s.issued[mint.accessToken := AccessClaims(cfg, userId, mint.accessJti, mint.accessAt)]
                         [mint.refreshToken := RefreshClaims(cfg, userId, mint.refreshJti, mint.refreshAt)])
  }

  function HandleRegister(cfg: Config, s: Server, req: Request): (Server, Response)
    requires req.Register?
  {
    var email := NormalizeEmail(req.email);
    if email in s.emails then (s, Rejected(409, EmailTaken))
    else
      var user := User(req.userId, email, req.passwordHash, req.createdAt);
      var s1 := s.(users := s.users[req.userId := user], emails := s.emails[email := req.userId]);
      (IssueTokens(cfg, s1, req.userId, req.mint),
       TokenPair(201, req.mint.accessToken, req.mint.refreshToken, Some(req.userId)))
  }

  function FindByEmail(s: Server, email: string): Option<User> {
    var key := NormalizeEmail(email);
    if key in s.emails && s.emails[key] in s.users then Some(s.users[s.emails[key]]) else None
  }

  function HandleLogin(cfg: Config, s: Server, req: Request): (Server, Response)
    requires req.Login?
  {
    var user := FindByEmail(s, req.email);
    if user.None? || !cfg.verify(user.value.passwordHash, req.password) then (s, Rejected(401, InvalidCredentials))
    else
      (IssueTokens(cfg, s, user.value.id, req.mint),
       TokenPair(200, req.mint.accessToken, req.mint.refreshToken, Some(user.value.id)))
  }

  function HandleRotate(cfg: Config, s: Server, req: Request): (Server, Response)
    requires req.Rotate?
  {
    match DecodeToken(s.issued, req.token, Refresh, req.now)
    case Err(code) => (s, Rejected(401, code))
    case Ok(claims) =>
      if !IsLive(s.rows, claims.jti) then (s, Rejected(401, TokenInvalid))
      else
        var userId := s.rows[claims.jti].userId;
        var s1 := s.(rows := RevokedAt(s.rows, claims.jti, req.revokedAt));
        if userId !in s.users then (s1, Rejected(401, TokenInvalid))
        else
          (IssueTokens(cfg, s1, s.users[userId].id, req.mint),
           TokenPair(200, req.mint.accessToken, req.mint.refreshToken, None))
  }

  function HandleLogout(s: Server, req: Request): (Server, Response)
    requires req.Logout?
  {
    match DecodeToken(s.issued, req.token, Refresh, req.now)
    case Err(_) => (s, NoContent)
    case Ok(claims) => (s.(rows := RevokedAt(s.rows, claims.jti, req.revokedAt)), NoContent)
  }

  function HandleAuthenticate(s: Server, req: Request): Response
    requires req.Authenticate?
  {
    match DecodeToken(s.issued, req.token, Access, req.now)
    case Err(code) => Rejected(401, code)
    case Ok(claims) =>
      if claims.sub in s.users then Authenticated(s.users[claims.sub].id) else Rejected(401, TokenInvalid)
  }

  const BEARER := "Bearer "

  /** The token of an `Authorization` header, if it is a bearer header with one. */
  function BearerToken(header: string): Option<string> {
    if !(BEARER <= header) then None
    else
      var token := Strip(header[|BEARER|..]);
      if token == "" then None else Some(token)
  }

  /** What the gate of a protected endpoint makes of the header. */
  function Guard(s: Server, header: string, now: Instant): Response {
    match BearerToken(header)
    case None => Rejected(401, AuthRequired)
    case Some(token) => HandleAuthenticate(s, Authenticate(token, now))
  }

  /** A header holds a token exactly when it starts with "Bearer " and more than white space follows, and then the token
      is what follows without the white space around it. */
  lemma BearerMeans(header: string) returns (before: string, after: string)
    ensures BearerToken(header).Some? <==>
              |header| >= 7 && header[..7] == "Bearer " && exists i :: 7 <= i < |header| && !IsSpace(header[i])
    ensures BearerToken(header).Some? ==>
              var token := BearerToken(header).value;
              && header == "Bearer " + (before + token + after) && Stripped(token)
              && forall c :: c in before + after ==> IsSpace(c)
  {
    before, after := "", "";
    if BEARER <= header {
      var rest := header[|BEARER|..];
      before, after := StripParts(rest);
      assert header == "Bearer " + (before + Strip(rest) + after);
      if Strip(rest) != "" {
        assert header[7 + |before|] == Strip(rest)[0];
      } else {
        assert forall i :: 7 <= i < |header| ==> header[i] in before + after;
      }
    }
  }

  /** The header the client sends is read as the token it holds. */
  lemma BearerRoundTrip(token: string)
    requires token != "" && Stripped(token)
    ensures BearerToken(BEARER + token) == Some(token)
  {
    assert (BEARER + token)[|BEARER|..] == token;
    StrippedUnchanged(token);
  }

  /** The gate opens exactly for a bearer header with an issued, current access token, and then for its subject. */
  lemma GuardOpens(s: Server, header: string, now: Instant)
    requires Inv(s)
    ensures var resp, token := Guard(s, header, now), BearerToken(header);
            && (resp.Authenticated? <==>
                  && token.Some? && token.value in s.issued
                  && s.issued[token.value].kind == Access
                  && s.issued[token.value].iat as real <= now < s.issued[token.value].exp as real)
            && (resp.Authenticated? ==> resp.userId == s.issued[token.value].sub)
            && (resp.Rejected? ==>
                  && resp.status == 401
                  && (resp.code == AuthRequired <==> token.None?)
                  && (resp.code == TokenExpired <==>
                        && token.Some? && token.value in s.issued
                        && s.issued[token.value].iat as real <= now && s.issued[token.value].exp as real <= now)
                  && resp.code in {AuthRequired, TokenExpired, TokenInvalid})
  {
    if BearerToken(header).Some? && BearerToken(header).value in s.issued {
      assert Backed(s, BearerToken(header).value);
    }
  }

  function Handle(cfg: Config, s: Server, req: Request): (Server, Response) {
    match req
    case Register(_, _, _, _, _) => HandleRegister(cfg, s, req)
    case Login(_, _, _) => HandleLogin(cfg, s, req)
    case Rotate(_, _, _, _) => HandleRotate(cfg, s, req)
    case Logout(_, _, _) => HandleLogout(s, req)
    case Authenticate(_, _) => (s, HandleAuthenticate(s, req))
  }

  // -------------------------------------------------------------------------
  // Fresh identifiers
  // -------------------------------------------------------------------------

  ghost predicate FreshMint(s: Server, mint: Mint) {
    && mint.refreshJti !in s.rows
    && (forall jti :: jti in s.rows ==> s.rows[jti].id != mint.rowId)
    && mint.accessToken !in s.issued && mint.refreshToken !in s.issued
    && mint.accessToken != mint.refreshToken
    && mint.accessToken != "" && mint.refreshToken != ""
  }

  /** uuid4 draws an id never drawn before, and the signer a string never signed before. */
  ghost predicate Fresh(s: Server, req: Request) {
    match req
    case Register(_, _, userId, _, mint) => userId !in s.users && FreshMint(s, mint)
    case Login(_, _, mint) => FreshMint(s, mint)
    case Rotate(_, _, _, mint) => FreshMint(s, mint)
    case _ => true
  }

  // -------------------------------------------------------------------------
  // What every request keeps
  // -------------------------------------------------------------------------

  /** A signed refresh token is backed by a row of the same owner, whose expiry rounds down to `exp`. */
  ghost predicate Backed(s: Server, token: string)
    requires token in s.issued
  {
    var c := s.issued[token];
    && (c.kind == Refresh ==>
          && c.jti in s.rows
          && s.rows[c.jti].userId == c.sub
          && c.exp == Seconds(s.rows[c.jti].expiresAt))
    && c.sub in s.users
  }

  ghost predicate Inv(s: Server) {
    && (forall id :: id in s.users ==> s.users[id].id == id)
    && (forall e :: e in s.emails ==> s.emails[e] in s.users && s.users[s.emails[e]].email == e)
    && (forall jti :: jti in s.rows ==> s.rows[jti].jti == jti && s.rows[jti].userId in s.users)
    && (forall t :: t in s.issued ==> t != "" && Backed(s, t))
    && (forall t, u | t in s.issued && u in s.issued && s.issued[t].kind == s.issued[u].kind == Refresh ::
          s.issued[t].jti == s.issued[u].jti ==> t == u)
  }

  lemma IssueTokensKeepsInv(cfg: Config, s: Server, userId: string, mint: Mint)
    requires Inv(s) && userId in s.users && FreshMint(s, mint)
    ensures Inv(IssueTokens(cfg, s, userId, mint))
  {
    var s' := IssueTokens(cfg, s, userId, mint);
    forall t | t in s'.issued
      ensures t != "" && Backed(s', t)
    {
      if t != mint.accessToken && t != mint.refreshToken {
        assert Backed(s, t);
      }
    }
    forall t, u | t in s'.issued && u in s'.issued && s'.issued[t].kind == s'.issued[u].kind == Refresh
                  && s'.issued[t].jti == s'.issued[u].jti
      ensures t == u
    {
      if t in s.issued {
        assert Backed(s, t);
      }
      if u in s.issued {
        assert Backed(s, u);
      }
    }
  }

  lemma RevokeKeepsInv(s: Server, jti: string, now: Instant)
    requires Inv(s)
    ensures Inv(s.(rows := RevokedAt(s.rows, jti, now)))
  {
    var s' := s.(rows := RevokedAt(s.rows, jti, now));
    forall t | t in s'.issued
      ensures Backed(s', t)
    {
      assert Backed(s, t);
    }
  }

  lemma HandleKeepsInv(cfg: Config, s: Server, req: Request)
    requires Inv(s) && Fresh(s, req)
    ensures Inv(Handle(cfg, s, req).0)
  {
    match req
    case Register(email, hash, userId, createdAt, mint) =>
      var key := NormalizeEmail(email);
      if key !in s.emails {
        var s1 := s.(users := s.users[userId := User(userId, key, hash, createdAt)], emails := s.emails[key := userId]);
        assert forall t :: t in s1.issued ==> Backed(s, t) && Backed(s1, t);
        IssueTokensKeepsInv(cfg, s1, userId, mint);
      }
    case Login(email, password, mint) =>
      var user := FindByEmail(s, email);
      if user.Some? && cfg.verify(user.value.passwordHash, password) {
        IssueTokensKeepsInv(cfg, s, user.value.id, mint);
      }
    case Rotate(token, now, revokedAt, mint) =>
      match DecodeToken(s.issued, token, Refresh, now) {
        case Err(_) =>
        case Ok(claims) =>
          if IsLive(s.rows, claims.jti) {
            RevokeKeepsInv(s, claims.jti, revokedAt);
            var s1 := s.(rows := RevokedAt(s.rows, claims.jti, revokedAt));
            IssueTokensKeepsInv(cfg, s1, s.rows[claims.jti].userId, mint);
          }
      }
    case Logout(token, now, revokedAt) =>
      match DecodeToken(s.issued, token, Refresh, now) {
        case Err(_) =>
        case Ok(claims) => RevokeKeepsInv(s, claims.jti, revokedAt);
      }
    case Authenticate(_, _) =>
  }
}
