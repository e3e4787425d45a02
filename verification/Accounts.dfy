/** Who gets tokens, and for whom: each authentication request in terms of what is stored, and accounts over whole
    runs of requests. */
module Accounts {
  import opened Common
  import opened RefreshTokens
  import opened AuthServer
  import opened Rotation

  // -------------------------------------------------------------------------
  // One request
  // -------------------------------------------------------------------------

  /** The claims say second `at` and last `ttl` seconds. */
  predicate Lasts(claims: Claims, at: Instant, ttl: nat) {
    claims.iat as real <= at < claims.iat as real + 1.0 && claims.exp == claims.iat + ttl
  }

  /** A new pair for the user, with a live row behind its refresh token; nothing is taken away. */
  ghost predicate HandedOut(cfg: Config, s: Server, s': Server, resp: Response, userId: string, mint: Mint) {
    && resp.TokenPair? && resp.access == mint.accessToken && resp.refresh == mint.refreshToken
    && s'.issued.Keys == s.issued.Keys + {resp.access, resp.refresh}
    && (forall t :: t in s.issued ==> s'.issued[t] == s.issued[t])
    && s'.issued[resp.access].sub == s'.issued[resp.refresh].sub == userId
    && s'.issued[resp.access].kind == Access && s'.issued[resp.refresh].kind == Refresh
    && s'.issued[resp.access].jti == mint.accessJti && s'.issued[resp.refresh].jti == mint.refreshJti
    && Lasts(s'.issued[resp.access], mint.accessAt, cfg.accessTtlSeconds)
    && Lasts(s'.issued[resp.refresh], mint.refreshAt, cfg.refreshTtlSeconds)
    && s'.rows.Keys == s.rows.Keys + {mint.refreshJti}
    && var row := s'.rows[mint.refreshJti];
       && row.Live() && row.userId == userId && row.id == mint.rowId && row.createdAt == mint.createdAt
       && row.expiresAt == mint.refreshAt + cfg.refreshTtlSeconds as real
  }

  lemma ExpiryInSeconds(now: Instant, ttl: nat)
    ensures Seconds(now + ttl as real) == Seconds(now) + ttl
  {
  }

  lemma Minted(cfg: Config, s: Server, userId: string, mint: Mint, resp: Response)
    requires FreshMint(s, mint) && resp.TokenPair?
    requires resp.access == mint.accessToken && resp.refresh == mint.refreshToken
    ensures HandedOut(cfg, s, IssueTokens(cfg, s, userId, mint), resp, userId, mint)
    ensures forall jti :: jti in s.rows ==> IssueTokens(cfg, s, userId, mint).rows[jti] == s.rows[jti]
    ensures IssueTokens(cfg, s, userId, mint).users == s.users && IssueTokens(cfg, s, userId, mint).emails == s.emails
  {
    ExpiryInSeconds(mint.accessAt, cfg.accessTtlSeconds);
    ExpiryInSeconds(mint.refreshAt, cfg.refreshTtlSeconds);
  }

  /** A registration is refused with 409 exactly when the address, stripped and in lower case, is taken; otherwise the
      account is stored under it and its owner gets a pair. */
  lemma RegistrationGranted(cfg: Config, s: Server, req: Request)
    requires Inv(s) && Fresh(s, req) && req.Register?
    ensures var (s', resp) := Handle(cfg, s, req);
            var key := Lower(Strip(req.email));
            && (resp.TokenPair? <==> key !in s.emails)
            && (key in s.emails ==> resp == Rejected(409, EmailTaken) && s' == s)
            && (resp.TokenPair? ==>
                  && resp.status == 201 && resp.user == Some(req.userId)
                  && HandedOut(cfg, s, s', resp, req.userId, req.mint)
                  && (forall jti :: jti in s.rows ==> s'.rows[jti] == s.rows[jti])
                  && s'.users == s.users[req.userId := User(req.userId, key, req.passwordHash, req.createdAt)]
                  && s'.emails == s.emails[key := req.userId])
  {
    var key := Lower(Strip(req.email));
    var resp := Handle(cfg, s, req).1;
    if resp.TokenPair? {
      var user := User(req.userId, key, req.passwordHash, req.createdAt);
      var s1 := s.(users := s.users[req.userId := user], emails := s.emails[key := req.userId]);
      Minted(cfg, s1, req.userId, req.mint, resp);
    }
  }

  /** A login is granted exactly when the address is registered and the password passes against the hash stored for
      its account, and then to that account. Every other login is refused alike and changes nothing. */
  lemma LoginGranted(cfg: Config, s: Server, req: Request)
    requires Inv(s) && Fresh(s, req) && req.Login?
    ensures var (s', resp) := Handle(cfg, s, req);
            var key := Lower(Strip(req.email));
            && (resp.TokenPair? <==>
                  key in s.emails && cfg.verify(s.users[s.emails[key]].passwordHash, req.password))
            && (resp.TokenPair? ==>
                  && resp.status == 200 && resp.user == Some(s.emails[key])
                  && HandedOut(cfg, s, s', resp, s.emails[key], req.mint)
                  && (forall jti :: jti in s.rows ==> s'.rows[jti] == s.rows[jti])
                  && s'.users == s.users && s'.emails == s.emails)
            && (!resp.TokenPair? ==> resp == Rejected(401, InvalidCredentials) && s' == s)
  {
    var resp := Handle(cfg, s, req).1;
    if resp.TokenPair? {
      Minted(cfg, s, s.emails[Lower(Strip(req.email))], req.mint, resp);
    }
  }

  /** The token is a refresh token this server signed, and current. */
  predicate CurrentRefresh(s: Server, token: string, now: Instant) {
    && token in s.issued && s.issued[token].kind == Refresh
    && s.issued[token].iat as real <= now < s.issued[token].exp as real
  }

  /** Issued, begun and over. */
  predicate RunOut(s: Server, token: string, now: Instant) {
    token in s.issued && s.issued[token].iat as real <= now && s.issued[token].exp as real <= now
  }

  /** A refresh is granted exactly for a current refresh token with an unrevoked row: that row is revoked, every other
      stays as it was, and the pair is for the token's subject. A refusal is 401, and says that the token has expired
      exactly when it was issued, has begun and is over. */
  lemma RefreshGranted(cfg: Config, s: Server, req: Request)
    requires Inv(s) && Fresh(s, req) && req.Rotate?
    ensures var (s', resp) := Handle(cfg, s, req);
            && (resp.TokenPair? <==>
                  CurrentRefresh(s, req.token, req.now) && IsLive(s.rows, s.issued[req.token].jti))
            && (resp.TokenPair? ==>
                  var claims := s.issued[req.token];
                  && resp.status == 200 && resp.user == None
                  && HandedOut(cfg, s, s', resp, claims.sub, req.mint)
                  && s'.rows[claims.jti] == s.rows[claims.jti].(revokedAt := Some(req.revokedAt))
                  && (forall jti :: jti in s.rows && jti != claims.jti ==> s'.rows[jti] == s.rows[jti])
                  && s'.users == s.users && s'.emails == s.emails)
            && (!resp.TokenPair? ==>
                  && s' == s
                  && resp == Rejected(401, if RunOut(s, req.token, req.now) then TokenExpired else TokenInvalid))
  {
    var resp := Handle(cfg, s, req).1;
    if req.token in s.issued {
      assert Backed(s, req.token);
      if resp.TokenPair? {
        var jti := s.issued[req.token].jti;
        Minted(cfg, s.(rows := RevokedAt(s.rows, jti, req.revokedAt)), s.rows[jti].userId, req.mint, resp);
      }
    }
  }

  /** A logout always answers 204 and changes at most one thing: the row of the current refresh token it presents, if
      that is live, is revoked. */
  lemma LogoutRevokes(cfg: Config, s: Server, req: Request)
    requires Inv(s) && req.Logout?
    ensures var (s', resp) := Handle(cfg, s, req);
            && resp == NoContent
            && s'.users == s.users && s'.emails == s.emails && s'.issued == s.issued && s'.rows.Keys == s.rows.Keys
            && forall jti :: jti in s.rows ==>
                 s'.rows[jti] == if CurrentRefresh(s, req.token, req.now) && jti == s.issued[req.token].jti
                                    && s.rows[jti].Live()
                                 then s.rows[jti].(revokedAt := Some(req.revokedAt)) else s.rows[jti]
  {
  }

  /** The gate's answer to a bearer token: the subject of a current access token, or one of the two refusals. */
  lemma GateAnswers(cfg: Config, s: Server, req: Request)
    requires Inv(s) && req.Authenticate?
    ensures var (s', resp) := Handle(cfg, s, req);
            && s' == s
            && resp == if req.token in s.issued && s.issued[req.token].kind == Access
                          && s.issued[req.token].iat as real <= req.now < s.issued[req.token].exp as real
                       then Authenticated(s.issued[req.token].sub)
                       else Rejected(401, if RunOut(s, req.token, req.now) then TokenExpired else TokenInvalid)
  {
    if req.token in s.issued {
      assert Backed(s, req.token);
    }
  }

  // -------------------------------------------------------------------------
  // Accounts over runs
  // -------------------------------------------------------------------------

  /** The address a request names, as accounts are stored under it. */
  predicate RegistersAs(req: Request, key: string) {
    req.Register? && Lower(Strip(req.email)) == key
  }

  /** Request `i` is the first registration of the address. */
  predicate FirstToRegister(run: seq<Request>, i: nat, key: string) {
    && i < |run| && RegistersAs(run[i], key)
    && forall k :: 0 <= k < i ==> !RegistersAs(run[k], key)
  }

  /** The account a registration opened. */
  function AccountOf(req: Request): User
    requires req.Register?
  {
    User(req.userId, Lower(Strip(req.email)), req.passwordHash, req.createdAt)
  }

  /** Accounts stay what they are. */
  lemma AccountsStay(cfg: Config, s: Server, req: Request)
    requires Inv(s) && Fresh(s, req)
    ensures var s' := Handle(cfg, s, req).0;
            && (forall id :: id in s.users ==> id in s'.users && s'.users[id] == s.users[id])
            && (forall key :: key in s'.emails <==> key in s.emails || RegistersAs(req, key))
            && (forall key :: key in s.emails ==> s'.emails[key] == s.emails[key])
  {
  }

  /** An address has an account exactly when one of the first `n` requests registered it, and it is the account of the
      first that did. */
  ghost predicate AccountSoFar(s: Server, run: seq<Request>, n: nat, key: string)
    requires n <= |run|
  {
    && (key in s.emails <==> exists i :: 0 <= i < n && RegistersAs(run[i], key))
    && forall i :: 0 <= i < n && FirstToRegister(run, i, key) ==>
         && key in s.emails && s.emails[key] == run[i].userId
         && run[i].userId in s.users && s.users[run[i].userId] == AccountOf(run[i])
  }

  lemma AccountStep(cfg: Config, s: Server, run: seq<Request>, n: nat, key: string)
    requires n < |run| && Inv(s) && Fresh(s, run[n]) && AccountSoFar(s, run, n, key)
    ensures AccountSoFar(Handle(cfg, s, run[n]).0, run, n + 1, key)
  {
    AccountsStay(cfg, s, run[n]);
    if RegistersAs(run[n], key) {
      RegistrationGranted(cfg, s, run[n]);
    }
  }

  lemma {:induction false} AccountAt(cfg: Config, run: seq<Request>, n: nat, key: string)
    requires FreshRun(cfg, run) && n <= |run|
    ensures AccountSoFar(StateAt(cfg, run, n), run, n, key)
  {
    if n != 0 {
      AccountAt(cfg, run, n - 1, key);
      InvAt(cfg, run, n - 1);
      assert FreshAt(cfg, run, n - 1);
      AccountStep(cfg, StateAt(cfg, run, n - 1), run, n - 1, key);
    }
  }

  lemma {:induction false} FirstExists(run: seq<Request>, n: nat, key: string) returns (i: nat)
    requires n < |run| && RegistersAs(run[n], key)
    ensures i <= n && FirstToRegister(run, i, key)
  {
    if k :| 0 <= k < n && RegistersAs(run[k], key) {
      i := FirstExists(run, k, key);
    } else {
      i := n;
    }
  }

  /** In every run, exactly the first registration of an address is accepted. */
  lemma FirstRegistrationWins(cfg: Config, run: seq<Request>, i: nat)
    requires FreshRun(cfg, run) && i < |run| && run[i].Register?
    ensures ResponseAt(cfg, run, i).TokenPair? <==> FirstToRegister(run, i, Lower(Strip(run[i].email)))
    ensures !ResponseAt(cfg, run, i).TokenPair? ==> ResponseAt(cfg, run, i) == Rejected(409, EmailTaken)
  {
    var key := Lower(Strip(run[i].email));
    InvAt(cfg, run, i);
    assert FreshAt(cfg, run, i);
    RegistrationGranted(cfg, StateAt(cfg, run, i), run[i]);
    AccountAt(cfg, run, i, key);
  }

  /** In every run, a login is granted exactly when its address was registered earlier and its password passes
      against the hash of the first registration, and then to the user of that registration. */
  lemma LoginAfterRegistration(cfg: Config, run: seq<Request>, j: nat)
    requires FreshRun(cfg, run) && j < |run| && run[j].Login?
    ensures var key, resp := Lower(Strip(run[j].email)), ResponseAt(cfg, run, j);
            && (resp.TokenPair? <==>
                  exists i :: 0 <= i < j && FirstToRegister(run, i, key)
                              && cfg.verify(run[i].passwordHash, run[j].password))
            && (forall i :: 0 <= i < j && FirstToRegister(run, i, key) && resp.TokenPair? ==>
                  resp.user == Some(run[i].userId))
            && (!resp.TokenPair? ==> resp == Rejected(401, InvalidCredentials))
  {
    var key := Lower(Strip(run[j].email));
    var s := StateAt(cfg, run, j);
    InvAt(cfg, run, j);
    assert FreshAt(cfg, run, j);
    LoginGranted(cfg, s, run[j]);
    AccountAt(cfg, run, j, key);
    if key in s.emails {
      var k :| 0 <= k < j && RegistersAs(run[k], key);
      var i := FirstExists(run, k, key);
      assert s.users[s.emails[key]] == AccountOf(run[i]);
    }
  }

  /** Whom a request handed its pair to: the user its answer names, or the subject of the token it presented. */
  function Holder(cfg: Config, s: Server, req: Request): string {
    if req.Rotate? then (if req.token in s.issued then s.issued[req.token].sub else "")
    else match Handle(cfg, s, req).1
      case TokenPair(_, _, _, Some(user)) => user
      case _ => ""
  }

  /** The claims of the access token in an answer. */
  lemma AccessOf(cfg: Config, s: Server, req: Request)
    requires Inv(s) && Fresh(s, req) && Handle(cfg, s, req).1.TokenPair?
    ensures var (s', resp) := Handle(cfg, s, req);
            && resp.access in s'.issued
            && s'.issued[resp.access] == Claims(Holder(cfg, s, req), req.mint.accessAt.Floor,
                                                req.mint.accessAt.Floor + cfg.accessTtlSeconds, req.mint.accessJti, Access)
    ensures req.Rotate? ==> req.token in s.issued
  {
    match req {
      case Register(_, _, _, _, _) => RegistrationGranted(cfg, s, req);
      case Login(_, _, _) => LoginGranted(cfg, s, req);
      case Rotate(_, _, _, _) => RefreshGranted(cfg, s, req);
      case _ =>
    }
  }

  /** In every run, the access token of any earlier answer opens the gate for whom it was handed to, from the second it
      was signed in until the access time to live is over, and never otherwise. */
  lemma HandedOutTokenOpens(cfg: Config, run: seq<Request>, i: nat, k: nat)
    requires FreshRun(cfg, run) && i < k < |run| && ResponseAt(cfg, run, i).TokenPair?
    requires run[k].Authenticate? && run[k].token == ResponseAt(cfg, run, i).access
    ensures var first := run[i].mint.accessAt.Floor;
            ResponseAt(cfg, run, k)
            == if first as real <= run[k].now < (first + cfg.accessTtlSeconds) as real
               then Authenticated(Holder(cfg, StateAt(cfg, run, i), run[i]))
               else Rejected(401, if first as real <= run[k].now then TokenExpired else TokenInvalid)
  {
    InvAt(cfg, run, i);
    assert FreshAt(cfg, run, i);
    AccessOf(cfg, StateAt(cfg, run, i), run[i]);
    assert StateAt(cfg, run, i + 1) == Handle(cfg, StateAt(cfg, run, i), run[i]).0;
    IssuedLater(cfg, run, i + 1, k, run[k].token);
    InvAt(cfg, run, k);
    GateAnswers(cfg, StateAt(cfg, run, k), run[k]);
  }
}
