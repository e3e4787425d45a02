/** Refresh-token rotation over whole runs of requests. */
module Rotation {
  import opened RefreshTokens
  import opened AuthServer

  // -------------------------------------------------------------------------
  // One request
  // -------------------------------------------------------------------------

  /** A refresh is accepted exactly for an issued refresh token that has begun, has not expired and whose row
      is unrevoked. The handler compares neither the row's expiry nor its owner with the token, yet the row is
      then unexpired and owned by the token's subject, and the pair it hands out is that subject's. */
  lemma AcceptedRefresh(cfg: Config, s: Server, req: Request)
    requires Inv(s) && Fresh(s, req) && req.Rotate?
    ensures Handle(cfg, s, req).1.TokenPair? <==>
            && req.token in s.issued
            && s.issued[req.token].kind == Refresh
            && s.issued[req.token].iat as real <= req.now < s.issued[req.token].exp as real
            && IsLive(s.rows, s.issued[req.token].jti)
    ensures Handle(cfg, s, req).1.TokenPair? ==>
              var claims := s.issued[req.token];
              var (s', resp) := Handle(cfg, s, req);
              && req.now < s.rows[claims.jti].expiresAt
              && s.rows[claims.jti].userId == claims.sub
              && s'.issued[resp.access].sub == s'.issued[resp.refresh].sub == claims.sub
              && s'.rows[s'.issued[resp.refresh].jti].userId == claims.sub
              && LiveJtis(s'.rows) == LiveJtis(s.rows) - {claims.jti} + {s'.issued[resp.refresh].jti}
    ensures !Handle(cfg, s, req).1.TokenPair? ==> Handle(cfg, s, req).1.Rejected? && Handle(cfg, s, req).0 == s
  {
    if req.token in s.issued {
      assert Backed(s, req.token);
    }
  }

  ghost predicate Spent(s: Server, jti: string) {
    jti in s.rows && !s.rows[jti].Live()
  }

  /** Once revoked, a row never changes again. */
  lemma SpentForever(cfg: Config, s: Server, req: Request, jti: string)
    requires Fresh(s, req) && Spent(s, jti)
    ensures Spent(Handle(cfg, s, req).0, jti)
    ensures Handle(cfg, s, req).0.rows[jti] == s.rows[jti]
  {
  }

  /** Signed tokens keep their claims. */
  lemma IssuedForever(cfg: Config, s: Server, req: Request, token: string)
    requires Fresh(s, req) && token in s.issued
    ensures token in Handle(cfg, s, req).0.issued
    ensures Handle(cfg, s, req).0.issued[token] == s.issued[token]
  {
  }

  // -------------------------------------------------------------------------
  // Runs
  // -------------------------------------------------------------------------

  /** The server after the first `n` requests of a run. */
  function StateAt(cfg: Config, run: seq<Request>, n: nat): Server
    requires n <= |run|
  {
    if n == 0 then EMPTY_SERVER else Handle(cfg, StateAt(cfg, run, n - 1), run[n - 1]).0
  }

  function ResponseAt(cfg: Config, run: seq<Request>, i: nat): Response
    requires i < |run|
  {
    Handle(cfg, StateAt(cfg, run, i), run[i]).1
  }

  ghost predicate FreshAt(cfg: Config, run: seq<Request>, i: nat)
    requires i < |run|
  {
    Fresh(StateAt(cfg, run, i), run[i])
  }

  ghost predicate FreshRun(cfg: Config, run: seq<Request>) {
    forall i {:trigger FreshAt(cfg, run, i)} :: 0 <= i < |run| ==> FreshAt(cfg, run, i)
  }

  lemma {:induction false} InvAt(cfg: Config, run: seq<Request>, n: nat)
    requires FreshRun(cfg, run) && n <= |run|
    ensures Inv(StateAt(cfg, run, n))
  {
    if n != 0 {
      InvAt(cfg, run, n - 1);
      assert FreshAt(cfg, run, n - 1);
      HandleKeepsInv(cfg, StateAt(cfg, run, n - 1), run[n - 1]);
    }
  }

  lemma {:induction false} SpentLater(cfg: Config, run: seq<Request>, i: nat, j: nat, jti: string)
    requires FreshRun(cfg, run) && i <= j <= |run|
    requires Spent(StateAt(cfg, run, i), jti)
    ensures Spent(StateAt(cfg, run, j), jti)
  {
    if i < j {
      SpentLater(cfg, run, i, j - 1, jti);
      assert FreshAt(cfg, run, j - 1);
      SpentForever(cfg, StateAt(cfg, run, j - 1), run[j - 1], jti);
    }
  }

  lemma {:induction false} IssuedLater(cfg: Config, run: seq<Request>, i: nat, j: nat, token: string)
    requires FreshRun(cfg, run) && i <= j <= |run|
    requires token in StateAt(cfg, run, i).issued
    ensures token in StateAt(cfg, run, j).issued
    ensures StateAt(cfg, run, j).issued[token] == StateAt(cfg, run, i).issued[token]
  {
    if i < j {
      IssuedLater(cfg, run, i, j - 1, token);
      assert FreshAt(cfg, run, j - 1);
      IssuedForever(cfg, StateAt(cfg, run, j - 1), run[j - 1], token);
    }
  }

  /** Whether request `i` used up the refresh token it presented: an accepted rotation, or a logout whose
      token could be decoded. */
  predicate UsesUp(cfg: Config, run: seq<Request>, i: nat)
    requires i < |run|
  {
    match run[i]
    case Rotate(_, _, _, _) => ResponseAt(cfg, run, i).TokenPair?
    case Logout(token, now, _) => DecodeToken(StateAt(cfg, run, i).issued, token, Refresh, now).Ok?
    case _ => false
  }

  /** The row of a token that was used up is spent. */
  lemma UsedUpIsSpent(cfg: Config, run: seq<Request>, i: nat)
    requires FreshRun(cfg, run) && i < |run| && UsesUp(cfg, run, i)
    ensures run[i].token in StateAt(cfg, run, i).issued
    ensures Spent(StateAt(cfg, run, i + 1), StateAt(cfg, run, i).issued[run[i].token].jti)
  {
    var s := StateAt(cfg, run, i);
    InvAt(cfg, run, i);
    assert FreshAt(cfg, run, i);
    assert Backed(s, run[i].token);
    assert StateAt(cfg, run, i + 1) == Handle(cfg, s, run[i]).0;
  }

  /** A refresh token is single-use: after a rotation or a logout used it up, every later refresh that
      presents it is answered 401 and changes nothing. */
  lemma SingleUse(cfg: Config, run: seq<Request>, i: nat, j: nat)
    requires FreshRun(cfg, run) && i < j < |run|
    requires UsesUp(cfg, run, i)
    requires run[j].Rotate? && run[j].token == run[i].token
    ensures ResponseAt(cfg, run, j).Rejected? && ResponseAt(cfg, run, j).status == 401
    ensures StateAt(cfg, run, j + 1) == StateAt(cfg, run, j)
  {
    UsedUpIsSpent(cfg, run, i);
    SpentLater(cfg, run, i + 1, j, StateAt(cfg, run, i).issued[run[i].token].jti);
    IssuedLater(cfg, run, i, j, run[i].token);
    assert StateAt(cfg, run, j + 1) == Handle(cfg, StateAt(cfg, run, j), run[j]).0;
  }

  // -------------------------------------------------------------------------
  // Conservation of live rows
  // -------------------------------------------------------------------------

  /** Successful registrations and logins among the first `n` requests. */
  function Grants(cfg: Config, run: seq<Request>, n: nat): nat
    requires n <= |run|
  {
    if n == 0 then 0
    else Grants(cfg, run, n - 1)
         + if !run[n - 1].Rotate? && ResponseAt(cfg, run, n - 1).TokenPair? then 1 else 0
  }

  /** Logouts among the first `n` requests that revoked a live row. */
  function SignOuts(cfg: Config, run: seq<Request>, n: nat): nat
    requires n <= |run|
  {
    if n == 0 then 0
    else SignOuts(cfg, run, n - 1) + if RevokesAt(cfg, run, n - 1) then 1 else 0
  }

  predicate RevokesAt(cfg: Config, run: seq<Request>, i: nat)
    requires i < |run|
  {
    && run[i].Logout?
    && var s := StateAt(cfg, run, i);
       var claims := DecodeToken(s.issued, run[i].token, Refresh, run[i].now);
       claims.Ok? && IsLive(s.rows, claims.value.jti)
  }

  lemma LiveAfterRevoke(rows: Rows, jti: string, now: Instant)
    ensures LiveJtis(RevokedAt(rows, jti, now)) == LiveJtis(rows) - {jti}
  {
  }

  lemma LiveAfterIssue(cfg: Config, s: Server, userId: string, mint: Mint)
    requires mint.refreshJti !in s.rows
    ensures LiveJtis(IssueTokens(cfg, s, userId, mint).rows) == LiveJtis(s.rows) + {mint.refreshJti}
  {
  }

  lemma LiveAfterRotate(cfg: Config, s: Server, req: Request)
    requires Inv(s) && Fresh(s, req) && req.Rotate?
    ensures |LiveJtis(Handle(cfg, s, req).0.rows)| == |LiveJtis(s.rows)|
  {
    AcceptedRefresh(cfg, s, req);
    var (s', resp) := Handle(cfg, s, req);
    if resp.TokenPair? {
      var before, after := s.issued[req.token].jti, s'.issued[resp.refresh].jti;
      assert LiveJtis(s'.rows) == LiveJtis(s.rows) - {before} + {after};
      assert before in LiveJtis(s.rows) && after !in LiveJtis(s.rows);
    }
  }

  lemma LiveAfterLogout(cfg: Config, s: Server, req: Request)
    requires req.Logout?
    ensures var claims := DecodeToken(s.issued, req.token, Refresh, req.now);
            |LiveJtis(Handle(cfg, s, req).0.rows)|
            == |LiveJtis(s.rows)| - if claims.Ok? && IsLive(s.rows, claims.value.jti) then 1 else 0
  {
    var claims := DecodeToken(s.issued, req.token, Refresh, req.now);
    if claims.Ok? {
      LiveAfterRevoke(s.rows, claims.value.jti, req.revokedAt);
    }
  }

  lemma LiveAfterGrant(cfg: Config, s: Server, req: Request)
    requires Fresh(s, req) && !req.Rotate? && !req.Logout?
    ensures |LiveJtis(Handle(cfg, s, req).0.rows)|
            == |LiveJtis(s.rows)| + if Handle(cfg, s, req).1.TokenPair? then 1 else 0
  {
    match req
    case Register(_, _, userId, _, mint) =>
      LiveAfterIssue(cfg, s, userId, mint);
    case Login(email, _, mint) =>
      var user := FindByEmail(s, email);
      if user.Some? {
        LiveAfterIssue(cfg, s, user.value.id, mint);
      }
    case Authenticate(_, _) =>
  }

  /** Live rows, plus effective logouts, always number the successful registrations and logins: rotation
      neither creates nor loses a grant. */
  lemma {:induction false} LiveRowsConserved(cfg: Config, run: seq<Request>, n: nat)
    requires FreshRun(cfg, run) && n <= |run|
    ensures |LiveJtis(StateAt(cfg, run, n).rows)| + SignOuts(cfg, run, n) == Grants(cfg, run, n)
  {
    if n == 0 {
      assert LiveJtis(EMPTY_SERVER.rows) == {};
    } else {
      LiveRowsConserved(cfg, run, n - 1);
      InvAt(cfg, run, n - 1);
      assert FreshAt(cfg, run, n - 1);
      var s, req := StateAt(cfg, run, n - 1), run[n - 1];
      if req.Rotate? {
        LiveAfterRotate(cfg, s, req);
      } else if req.Logout? {
        LiveAfterLogout(cfg, s, req);
      } else {
        LiveAfterGrant(cfg, s, req);
      }
    }
  }

  // -------------------------------------------------------------------------
  // Chains of rotations
  // -------------------------------------------------------------------------

  /** The chain each row belongs to, named by the jti its login or registration issued: rotation hands on the
      origin of the token it used. */
  function OriginsAfter(cfg: Config, s: Server, req: Request, origins: map<string, string>): map<string, string> {
    if !Handle(cfg, s, req).1.TokenPair? then origins
    else if req.Rotate? then
      var used := if req.token in s.issued then s.issued[req.token].jti else "";
      origins[req.mint.refreshJti := if used in origins then origins[used] else used]
    else origins[req.mint.refreshJti := req.mint.refreshJti]
  }

  function Origins(cfg: Config, run: seq<Request>, n: nat): map<string, string>
    requires n <= |run|
  {
    if n == 0 then map[]
    else OriginsAfter(cfg, StateAt(cfg, run, n - 1), run[n - 1], Origins(cfg, run, n - 1))
  }

  ghost predicate ChainInv(rows: Rows, origins: map<string, string>) {
    && origins.Keys == rows.Keys
    && origins.Values <= rows.Keys
    && (forall a, b :: IsLive(rows, a) && IsLive(rows, b) && origins[a] == origins[b] ==> a == b)
  }

  lemma ChainRevoked(rows: Rows, origins: map<string, string>, jti: string, now: Instant)
    requires ChainInv(rows, origins)
    ensures ChainInv(RevokedAt(rows, jti, now), origins)
  {
    var rows' := RevokedAt(rows, jti, now);
    assert forall a :: IsLive(rows', a) ==> IsLive(rows, a);
  }

  lemma ChainExtended(rows: Rows, origins: map<string, string>, row: RefreshTokenRecord, origin: string)
    requires ChainInv(rows, origins)
    requires row.jti !in rows && (origin == row.jti || origin in rows)
    requires forall a :: IsLive(rows, a) ==> origins[a] != origin
    ensures ChainInv(rows[row.jti := row], origins[row.jti := origin])
  {
    var rows' := rows[row.jti := row];
    assert forall a :: IsLive(rows', a) ==> a == row.jti || IsLive(rows, a);
  }

  lemma ChainHandedOn(rows: Rows, origins: map<string, string>, used: string, now: Instant, row: RefreshTokenRecord)
    requires ChainInv(rows, origins) && IsLive(rows, used) && row.jti !in rows
    ensures ChainInv(RevokedAt(rows, used, now)[row.jti := row], origins[row.jti := origins[used]])
  {
    ChainRevoked(rows, origins, used, now);
    var rows1 := RevokedAt(rows, used, now);
    assert forall a :: IsLive(rows1, a) ==> IsLive(rows, a) && a != used;
    ChainExtended(rows1, origins, row, origins[used]);
  }

  lemma ChainRotated(cfg: Config, s: Server, req: Request, origins: map<string, string>)
    requires Inv(s) && Fresh(s, req) && ChainInv(s.rows, origins)
    requires req.Rotate? && Handle(cfg, s, req).1.TokenPair?
    ensures ChainInv(Handle(cfg, s, req).0.rows, OriginsAfter(cfg, s, req, origins))
  {
    var used := s.issued[req.token].jti;
    var row := Handle(cfg, s, req).0.rows[req.mint.refreshJti];
    ChainHandedOn(s.rows, origins, used, req.revokedAt, row);
    assert Handle(cfg, s, req).0.rows == RevokedAt(s.rows, used, req.revokedAt)[row.jti := row];
  }

  lemma ChainGranted(cfg: Config, s: Server, userId: string, mint: Mint, origins: map<string, string>)
    requires FreshMint(s, mint) && ChainInv(s.rows, origins)
    ensures ChainInv(IssueTokens(cfg, s, userId, mint).rows, origins[mint.refreshJti := mint.refreshJti])
  {
    ChainExtended(s.rows, origins, IssueTokens(cfg, s, userId, mint).rows[mint.refreshJti], mint.refreshJti);
  }

  lemma ChainStep(cfg: Config, s: Server, req: Request, origins: map<string, string>)
    requires Inv(s) && Fresh(s, req) && ChainInv(s.rows, origins)
    ensures ChainInv(Handle(cfg, s, req).0.rows, OriginsAfter(cfg, s, req, origins))
  {
    match req
    case Register(_, _, userId, _, mint) =>
      ChainGranted(cfg, s, userId, mint, origins);
    case Login(email, _, mint) =>
      var user := FindByEmail(s, email);
      if user.Some? {
        ChainGranted(cfg, s, user.value.id, mint, origins);
      }
    case Rotate(_, _, _, _) =>
      AcceptedRefresh(cfg, s, req);
      if Handle(cfg, s, req).1.TokenPair? {
        ChainRotated(cfg, s, req, origins);
      }
    case Logout(token, now, revokedAt) =>
      var claims := DecodeToken(s.issued, token, Refresh, now);
      if claims.Ok? {
        ChainRevoked(s.rows, origins, claims.value.jti, revokedAt);
      }
    case Authenticate(_, _) =>
  }

  lemma {:induction false} ChainInvAt(cfg: Config, run: seq<Request>, n: nat)
    requires FreshRun(cfg, run) && n <= |run|
    ensures ChainInv(StateAt(cfg, run, n).rows, Origins(cfg, run, n))
  {
    if n != 0 {
      ChainInvAt(cfg, run, n - 1);
      InvAt(cfg, run, n - 1);
      assert FreshAt(cfg, run, n - 1);
      ChainStep(cfg, StateAt(cfg, run, n - 1), run[n - 1], Origins(cfg, run, n - 1));
    }
  }

  ghost function LiveInChain(rows: Rows, origins: map<string, string>, origin: string): set<string> {
    set jti | jti in origins && IsLive(rows, jti) && origins[jti] == origin
  }

  lemma AtMostOneLive(rows: Rows, origins: map<string, string>, origin: string)
    requires ChainInv(rows, origins)
    ensures |LiveInChain(rows, origins, origin)| <= 1
  {
    var chain := LiveInChain(rows, origins, origin);
    if chain != {} {
      var jti :| jti in chain;
      assert chain == {jti};
    }
  }

  /** In every state of every run every row belongs to exactly one login's chain of refresh tokens, and each
      chain has at most one live row. */
  lemma OneLivePerChain(cfg: Config, run: seq<Request>, n: nat, origin: string)
    requires FreshRun(cfg, run) && n <= |run|
    ensures Origins(cfg, run, n).Keys == StateAt(cfg, run, n).rows.Keys
    ensures |LiveInChain(StateAt(cfg, run, n).rows, Origins(cfg, run, n), origin)| <= 1
  {
    ChainInvAt(cfg, run, n);
    AtMostOneLive(StateAt(cfg, run, n).rows, Origins(cfg, run, n), origin);
  }
}
