/** What a session achieves when the network delivers: signing in stores what the server issued, and an expired access
    token is renewed behind the user's back. */
module Progress {
  import opened Common
  import opened RefreshTokens
  import opened AuthServer
  import opened Accounts
  import opened ApiProtocol
  import opened AppSession
  import opened SessionSystem

  /** The server serves the request a session is waiting on, and the session gets the answer. */
  ghost function RoundTrip(cfg: Config, w: World, sid: nat, request: Request, answer: Reply): World {
    if sid !in w.sessions || !w.sessions[sid].phase.InCall? then w
    else
      var served := Next(cfg, w, Serve(w.sessions[sid].phase.msg, request, answer), false);
      Next(cfg, served, Deliver(sid, Rendered(Handle(cfg, w.server, request).1, answer)), false)
  }

  lemma RoundTripEnds(cfg: Config, w: World, sid: nat, request: Request, answer: Reply)
    requires sid in w.sessions && w.sessions[sid].phase.InCall? && !w.sessions[sid].phase.stage.Done?
    requires w.sessions[sid].phase.msg < |w.sent| && Decodes(w.sent[w.sessions[sid].phase.msg], request)
    requires Fresh(w.server, request)
    ensures var s := w.sessions[sid];
            var w' := RoundTrip(cfg, w, sid, request, answer);
            var (server, response) := Handle(cfg, w.server, request);
            var (tokens, stage) := OnReply(s.tokens, s.phase.stage, Rendered(response, answer));
            && w'.server == server
            && w'.sessions.Keys == w.sessions.Keys
            && if stage.Done? then
                 && w'.sent == w.sent
                 && w'.sessions[sid].stored == StoredAfter(s.stored, tokens, stage.outcome, s.phase.purpose)
                 && w'.sessions[sid].phase == if GoesOn(stage.outcome, s.phase.purpose) then Running else Boundary
               else
                 && w'.sent == w.sent + [Outgoing(tokens, stage)]
                 && w'.sessions[sid] == Session(s.stored, tokens, InCall(stage, |w.sent|, s.phase.purpose))
  {
    var msg := w.sessions[sid].phase.msg;
    var served := Next(cfg, w, Serve(msg, request, answer), false);
    assert (msg, Rendered(Handle(cfg, w.server, request).1, answer)) in served.replies;
  }

  // -------------------------------------------------------------------------
  // Signing in
  // -------------------------------------------------------------------------

  lemma Submitted(cfg: Config, w: World, sid: nat, endpoint: Endpoint)
    requires WorldInv(w) && Enabled(w, SubmitSignIn(sid, endpoint, true), false)
    ensures var w1 := Next(cfg, w, SubmitSignIn(sid, endpoint, true), false);
            && sid in w1.sessions && w1.server == w.server && w1.sent == w.sent + [Api(endpoint, None)]
            && w1.sessions[sid] == Session(SIGNED_OUT, NO_TOKENS, InCall(First(endpoint, false), |w.sent|, SigningIn))
  {
    assert SessionOk(w.sessions[sid], w.sent);
  }

  /** What the answer to a login or registration makes of a signed-out session. */
  lemma SignInAnswered(cfg: Config, s: Server, endpoint: Endpoint, request: Request, answer: Reply)
    requires Inv(s) && Fresh(s, request) && (request.Login? || request.Register?)
    ensures var (s', response) := Handle(cfg, s, request);
            var (_, stage) := OnReply(NO_TOKENS, First(endpoint, false), Rendered(response, answer));
            && stage.Done?
            && (GoesOn(stage.outcome, SigningIn) <==> !response.TokenPair?)
            && if response.TokenPair? then
                 && response.user.Some?
                 && AfterSignIn(SIGNED_OUT, stage.outcome)
                    == Stored(Some(response.access), Some(response.refresh), response.user)
                 && LiveRefresh(s', response.refresh) && s'.issued[response.refresh].sub == response.user.value
               else AfterSignIn(SIGNED_OUT, stage.outcome) == SIGNED_OUT
  {
    if request.Register? {
      RegistrationGranted(cfg, s, request);
    } else {
      LoginGranted(cfg, s, request);
    }
  }

  /** A session that signs in or registers and gets the server's answer has either the issued pair, with a live refresh
      token, beside the user it was issued to, and is rerun; or it goes on with what it had, which is nothing. */
  lemma SignInSucceeds(cfg: Config, w: World, sid: nat, endpoint: Endpoint, request: Request, answer: Reply)
    requires WorldInv(w) && Enabled(w, SubmitSignIn(sid, endpoint, true), false)
    requires Decodes(Api(endpoint, None), request) && Fresh(w.server, request)
    ensures var w1 := Next(cfg, w, SubmitSignIn(sid, endpoint, true), false);
            var w2 := RoundTrip(cfg, w1, sid, request, answer);
            var (server, response) := Handle(cfg, w.server, request);
            && w2.server == server && sid in w2.sessions
            && w2.sessions[sid].phase == (if response.TokenPair? then Boundary else Running)
            && if response.TokenPair? then
                 && response.user.Some?
                 && w2.sessions[sid].stored == Stored(Some(response.access), Some(response.refresh), response.user)
                 && LiveRefresh(server, response.refresh)
                 && server.issued[response.refresh].sub == response.user.value
               else w2.sessions[sid].stored == SIGNED_OUT
  {
    Submitted(cfg, w, sid, endpoint);
    RoundTripEnds(cfg, Next(cfg, w, SubmitSignIn(sid, endpoint, true), false), sid, request, answer);
    SignInAnswered(cfg, w.server, endpoint, request, answer);
  }

  lemma StoredIsLive(w: World, sid: nat)
    requires WorldInv(w) && sid in w.sessions && w.sessions[sid].phase.Running?
    requires w.sessions[sid].stored.refresh.Some?
    ensures LiveRefresh(w.server, w.sessions[sid].stored.refresh.value)
  {
    assert HasClaim(w, w.sessions[sid], w.sessions[sid].stored.refresh.value);
    assert ClaimOk(w, w.sessions[sid].stored.refresh.value);
  }

  // -------------------------------------------------------------------------
  // Signing out
  // -------------------------------------------------------------------------

  lemma LogoutSent(cfg: Config, w: World, sid: nat)
    requires WorldInv(w) && Enabled(w, ClickLogout(sid, true), false)
    ensures var s := w.sessions[sid];
            var w1 := Next(cfg, w, ClickLogout(sid, true), false);
            && s.tokens == StoredPair(s.stored) && NonEmpty(s.tokens)
            && sid in w1.sessions && w1.server == w.server
            && w1.sent == w.sent + [Api(SignOut(s.tokens.refresh.value), None)]
            && w1.sessions[sid]
               == Session(s.stored, s.tokens, InCall(First(SignOut(s.tokens.refresh.value), false), |w.sent|, SigningOut))
  {
    assert SessionOk(w.sessions[sid], w.sent);
  }

  /** A session that logs out and gets the server's answer has forgotten its three keys, and the refresh token it had is
      used up unless it had run out, or is not yet valid, on the server's clock. */
  lemma LogoutSucceeds(cfg: Config, w: World, sid: nat, request: Request, answer: Reply)
    requires WorldInv(w) && Enabled(w, ClickLogout(sid, true), false)
    requires request.Logout? && w.sessions[sid].tokens.refresh == Some(request.token)
    ensures var w1 := Next(cfg, w, ClickLogout(sid, true), false);
            var w2 := RoundTrip(cfg, w1, sid, request, answer);
            && sid in w2.sessions && w2.sessions[sid].phase.Boundary?
            && w2.sessions[sid].stored == Stored(None, None, None)
            && request.token in w2.server.issued
            && (LiveRefresh(w2.server, request.token) <==> !CurrentRefresh(w.server, request.token, request.now))
  {
    LogoutSent(cfg, w, sid);
    StoredIsLive(w, sid);
    RoundTripEnds(cfg, Next(cfg, w, ClickLogout(sid, true), false), sid, request, answer);
    LogoutRevokes(cfg, w.server, request);
  }

  // -------------------------------------------------------------------------
  // Renewal
  // -------------------------------------------------------------------------

  lemma ActionSent(cfg: Config, w: World, sid: nat, endpoint: Endpoint)
    requires WorldInv(w) && Enabled(w, Act(sid, endpoint, true), false)
    ensures var s := w.sessions[sid];
            var w1 := Next(cfg, w, Act(sid, endpoint, true), false);
            && s.tokens == StoredPair(s.stored) && NonEmpty(s.tokens)
            && sid in w1.sessions && w1.server == w.server && w1.sent == w.sent + [Api(endpoint, s.tokens.access)]
            && w1.sessions[sid] == Session(s.stored, s.tokens, InCall(First(endpoint, true), |w.sent|, Working))
  {
    assert SessionOk(w.sessions[sid], w.sent);
  }

  /** The three requests of a renewal: the action is refused, the pair is rotated, the action is repeated. */
  datatype Renewal = Renewal(refused: Request, rotate: Request, again: Request)

  /** The clock readings of a renewal: the access token is refused, the refresh token is current, and the new access
      token is used before it runs out. */
  ghost predicate Timely(cfg: Config, s: Server, tokens: Tokens, r: Renewal) {
    && NonEmpty(tokens)
    && r.refused.Authenticate? && r.refused.token == tokens.access.value
    && Handle(cfg, s, r.refused).1.Rejected?
    && r.rotate.Rotate? && r.rotate.token == tokens.refresh.value && Fresh(s, r.rotate)
    && CurrentRefresh(s, tokens.refresh.value, r.rotate.now)
    && r.again.Authenticate? && r.again.token == r.rotate.mint.accessToken
    && r.rotate.mint.accessAt.Floor as real <= r.again.now
    && r.again.now < (r.rotate.mint.accessAt.Floor + cfg.accessTtlSeconds) as real
  }

  lemma FirstRefused(cfg: Config, s: Server, tokens: Tokens, endpoint: Endpoint, refused: Request, answer: Reply)
    requires Inv(s) && NonEmpty(tokens) && refused.Authenticate? && Handle(cfg, s, refused).1.Rejected?
    ensures var (s1, response) := Handle(cfg, s, refused);
            s1 == s && OnReply(tokens, First(endpoint, true), Rendered(response, answer)) == (tokens, Refreshing(endpoint))
  {
    GateAnswers(cfg, s, refused);
  }

  lemma ActionRefused(cfg: Config, w1: World, sid: nat, endpoint: Endpoint, refused: Request, answer: Reply)
    returns (w2: World)
    requires Inv(w1.server) && sid in w1.sessions && |w1.sent| >= 1 && endpoint.Other?
    requires var s := w1.sessions[sid];
             && s.phase == InCall(First(endpoint, true), |w1.sent| - 1, Working) && NonEmpty(s.tokens)
             && w1.sent[|w1.sent| - 1] == Api(endpoint, s.tokens.access)
             && refused.Authenticate? && refused.token == s.tokens.access.value
             && Handle(cfg, w1.server, refused).1.Rejected?
    ensures w2 == RoundTrip(cfg, w1, sid, refused, answer) && w2.server == w1.server && sid in w2.sessions
    ensures var s := w1.sessions[sid];
            && w2.sent == w1.sent + [Api(RefreshWith(s.tokens.refresh.value), None)]
            && w2.sessions[sid] == s.(phase := InCall(Refreshing(endpoint), |w1.sent|, Working))
  {
    w2 := RoundTrip(cfg, w1, sid, refused, answer);
    RoundTripEnds(cfg, w1, sid, refused, answer);
    FirstRefused(cfg, w1.server, w1.sessions[sid].tokens, endpoint, refused, answer);
  }

  lemma Rotated(cfg: Config, s: Server, tokens: Tokens, r: Renewal)
    requires Inv(s) && Timely(cfg, s, tokens, r) && LiveRefresh(s, tokens.refresh.value)
    ensures var (s2, response) := Handle(cfg, s, r.rotate);
            var mint := r.rotate.mint;
            && response == TokenPair(200, mint.accessToken, mint.refreshToken, None)
            && Inv(s2)
            && LiveRefresh(s2, mint.refreshToken) && !LiveRefresh(s2, tokens.refresh.value)
            && s2.issued[mint.refreshToken].sub == s.issued[tokens.refresh.value].sub
  {
    RefreshGranted(cfg, s, r.rotate);
    HandleKeepsInv(cfg, s, r.rotate);
  }

  lemma UsedAgain(cfg: Config, s: Server, tokens: Tokens, r: Renewal)
    requires Inv(s) && Timely(cfg, s, tokens, r) && LiveRefresh(s, tokens.refresh.value)
    ensures var s2 := Handle(cfg, s, r.rotate).0;
            Handle(cfg, s2, r.again) == (s2, Authenticated(s.issued[tokens.refresh.value].sub))
  {
    Rotated(cfg, s, tokens, r);
    AccessOf(cfg, s, r.rotate);
    GateAnswers(cfg, Handle(cfg, s, r.rotate).0, r.again);
  }

  lemma SecondRenewed(tokens: Tokens, endpoint: Endpoint, access: string, refresh: string, answer: Reply)
    ensures OnReply(tokens, Refreshing(endpoint), Rendered(TokenPair(200, access, refresh, None), answer))
            == (Tokens(Some(access), Some(refresh)), Retry(endpoint))
  {
  }

  lemma RotationEnds(cfg: Config, s: Server, tokens: Tokens, endpoint: Endpoint, r: Renewal, answer: Reply)
    requires Inv(s) && Timely(cfg, s, tokens, r) && LiveRefresh(s, tokens.refresh.value)
    ensures var (s2, response) := Handle(cfg, s, r.rotate);
            var mint := r.rotate.mint;
            && OnReply(tokens, Refreshing(endpoint), Rendered(response, answer))
               == (Tokens(Some(mint.accessToken), Some(mint.refreshToken)), Retry(endpoint))
            && LiveRefresh(s2, mint.refreshToken) && !LiveRefresh(s2, tokens.refresh.value)
            && mint.accessToken != "" && mint.refreshToken != ""
            && Handle(cfg, s2, r.again).0 == s2 && Handle(cfg, s2, r.again).1.Authenticated?
  {
    Rotated(cfg, s, tokens, r);
    UsedAgain(cfg, s, tokens, r);
    SecondRenewed(tokens, endpoint, r.rotate.mint.accessToken, r.rotate.mint.refreshToken, answer);
  }

  /** In every reachable state, an action whose access token is refused, and whose refresh token has not run out, ends
      with a new pair stored beside the same user, if the network delivers: the old refresh token is used up, the new
      one is live, and the action gets its answer. That the old one is still live need not be assumed. */
  lemma AccessIsRenewed(cfg: Config, steps: seq<Step>, sid: nat, endpoint: Endpoint, r: Renewal, answer: Reply)
    requires Enabled(Run(cfg, steps, false), Act(sid, endpoint, true), false)
    requires Timely(cfg, Run(cfg, steps, false).server, Run(cfg, steps, false).sessions[sid].tokens, r)
    requires answer.Http? && answer.status != 401
    ensures var w := Run(cfg, steps, false);
            var w1 := Next(cfg, w, Act(sid, endpoint, true), false);
            var w2 := RoundTrip(cfg, w1, sid, r.refused, answer);
            var w3 := RoundTrip(cfg, w2, sid, r.rotate, answer);
            var w4 := RoundTrip(cfg, w3, sid, r.again, answer);
            var mint := r.rotate.mint;
            && sid in w4.sessions && w4.sessions[sid].phase == (if BadJson(answer) then Boundary else Running)
            && w4.sessions[sid].stored
               == Stored(Some(mint.accessToken), Some(mint.refreshToken), w.sessions[sid].stored.user)
            && LiveRefresh(w4.server, mint.refreshToken)
            && !LiveRefresh(w4.server, w.sessions[sid].tokens.refresh.value)
            && |w4.sent| == |w.sent| + 3
  {
    var w := Run(cfg, steps, false);
    RunKeepsInv(cfg, steps);
    ActionSent(cfg, w, sid, endpoint);
    StoredIsLive(w, sid);
    var w1 := Next(cfg, w, Act(sid, endpoint, true), false);
    var w2 := ActionRefused(cfg, w1, sid, endpoint, r.refused, answer);
    var mint := r.rotate.mint;
    RotationEnds(cfg, w.server, w.sessions[sid].tokens, endpoint, r, answer);
    var w3 := AfterRotation(cfg, w2, sid, endpoint, r.rotate, Tokens(Some(mint.accessToken), Some(mint.refreshToken)), answer);
    var w4 := AfterRepetition(cfg, w3, sid, endpoint, r, answer);
  }

  lemma AfterRotation(cfg: Config, w2: World, sid: nat, endpoint: Endpoint, rotate: Request, pair: Tokens, answer: Reply)
    returns (w3: World)
    requires sid in w2.sessions && |w2.sent| >= 1 && rotate.Rotate? && Fresh(w2.server, rotate)
    requires var s := w2.sessions[sid];
             && s.phase == InCall(Refreshing(endpoint), |w2.sent| - 1, Working)
             && w2.sent[|w2.sent| - 1] == Api(RefreshWith(rotate.token), None)
             && OnReply(s.tokens, Refreshing(endpoint), Rendered(Handle(cfg, w2.server, rotate).1, answer))
                == (pair, Retry(endpoint))
    ensures w3 == RoundTrip(cfg, w2, sid, rotate, answer) && w3.server == Handle(cfg, w2.server, rotate).0
    ensures && sid in w3.sessions && w3.sent == w2.sent + [Api(endpoint, pair.access)]
            && w3.sessions[sid] == Session(w2.sessions[sid].stored, pair, InCall(Retry(endpoint), |w2.sent|, Working))
  {
    w3 := RoundTrip(cfg, w2, sid, rotate, answer);
    RoundTripEnds(cfg, w2, sid, rotate, answer);
  }

  lemma AfterRepetition(cfg: Config, w3: World, sid: nat, endpoint: Endpoint, r: Renewal, answer: Reply)
    returns (w4: World)
    requires sid in w3.sessions && |w3.sent| >= 1 && endpoint.Other? && answer.Http? && answer.status != 401
    requires var s := w3.sessions[sid];
             && s.phase == InCall(Retry(endpoint), |w3.sent| - 1, Working) && NonEmpty(s.tokens)
             && w3.sent[|w3.sent| - 1] == Api(endpoint, s.tokens.access)
             && r.again.Authenticate? && r.again.token == s.tokens.access.value
             && Handle(cfg, w3.server, r.again).0 == w3.server && Handle(cfg, w3.server, r.again).1.Authenticated?
    ensures w4 == RoundTrip(cfg, w3, sid, r.again, answer)
    ensures && w4.server == w3.server && w4.sent == w3.sent && sid in w4.sessions
            && w4.sessions[sid].phase == (if BadJson(answer) then Boundary else Running)
            && w4.sessions[sid].stored
               == Stored(w3.sessions[sid].tokens.access, w3.sessions[sid].tokens.refresh, w3.sessions[sid].stored.user)
  {
    w4 := RoundTrip(cfg, w3, sid, r.again, answer);
    RoundTripEnds(cfg, w3, sid, r.again, answer);
  }

  // -------------------------------------------------------------------------
  // Expiry
  // -------------------------------------------------------------------------

  lemma RefreshRefused(cfg: Config, s: Server, tokens: Tokens, endpoint: Endpoint, rotate: Request, answer: Reply)
    requires Inv(s) && rotate.Rotate? && Fresh(s, rotate) && !CurrentRefresh(s, rotate.token, rotate.now)
    ensures var (s2, response) := Handle(cfg, s, rotate);
            && s2 == s
            && OnReply(tokens, Refreshing(endpoint), Rendered(response, answer)) == (NO_TOKENS, Done(AuthExpired))
  {
    RefreshGranted(cfg, s, rotate);
  }

  lemma AfterRefusedRefresh(cfg: Config, w2: World, sid: nat, endpoint: Endpoint, rotate: Request, answer: Reply)
    returns (w3: World)
    requires Inv(w2.server) && sid in w2.sessions && |w2.sent| >= 1
    requires var s := w2.sessions[sid];
             && s.phase == InCall(Refreshing(endpoint), |w2.sent| - 1, Working) && Present(s.tokens.refresh)
             && w2.sent[|w2.sent| - 1] == Api(RefreshWith(s.tokens.refresh.value), None)
             && rotate.Rotate? && rotate.token == s.tokens.refresh.value && Fresh(w2.server, rotate)
             && !CurrentRefresh(w2.server, rotate.token, rotate.now)
    ensures w3 == RoundTrip(cfg, w2, sid, rotate, answer) && w3.server == w2.server && sid in w3.sessions
    ensures w3.sessions[sid].stored == SIGNED_OUT && w3.sessions[sid].phase.Boundary?
  {
    w3 := RoundTrip(cfg, w2, sid, rotate, answer);
    RoundTripEnds(cfg, w2, sid, rotate, answer);
    RefreshRefused(cfg, w2.server, w2.sessions[sid].tokens, endpoint, rotate, answer);
  }

  /** In every reachable state, an action whose access token is refused, and whose refresh token has run out, signs the
      session out, if the network delivers: the three keys are gone and the page is rerun. */
  lemma SessionExpires(cfg: Config, steps: seq<Step>, sid: nat, endpoint: Endpoint, refused: Request, rotate: Request,
                       answer: Reply)
    requires Enabled(Run(cfg, steps, false), Act(sid, endpoint, true), false)
    requires var (server, tokens) := (Run(cfg, steps, false).server, Run(cfg, steps, false).sessions[sid].tokens);
             && refused.Authenticate? && tokens.access == Some(refused.token) && Handle(cfg, server, refused).1.Rejected?
             && rotate.Rotate? && tokens.refresh == Some(rotate.token) && Fresh(server, rotate)
             && !CurrentRefresh(server, rotate.token, rotate.now)
    ensures var w := Run(cfg, steps, false);
            var w1 := Next(cfg, w, Act(sid, endpoint, true), false);
            var w2 := RoundTrip(cfg, w1, sid, refused, answer);
            var w3 := RoundTrip(cfg, w2, sid, rotate, answer);
            && sid in w3.sessions && w3.sessions[sid].phase.Boundary?
            && w3.sessions[sid].stored == Stored(None, None, None)
            && w3.server == w.server
  {
    var w := Run(cfg, steps, false);
    RunKeepsInv(cfg, steps);
    ActionSent(cfg, w, sid, endpoint);
    var w1 := Next(cfg, w, Act(sid, endpoint, true), false);
    var w2 := ActionRefused(cfg, w1, sid, endpoint, refused, answer);
    var w3 := AfterRefusedRefresh(cfg, w2, sid, endpoint, rotate, answer);
  }
}
