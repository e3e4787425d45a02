/** Many Streamlit sessions and one server, over a network that may lose, delay or duplicate: requests that
    were ever sent can be served at any later time and any number of times, and a reply reaches its session
    only while that session is still waiting for it. */
module SessionSystem {
  import opened Common
  import opened RefreshTokens
  import opened AuthServer
  import opened ApiProtocol
  import opened AppSession

  // -------------------------------------------------------------------------
  // State
  // -------------------------------------------------------------------------

  datatype Purpose = SigningIn | SigningOut | Working

  /** Between reruns, inside one, or inside one and waiting for the reply to a request. */
  datatype Phase = Boundary | Running | InCall(stage: Stage, msg: nat, purpose: Purpose)

  datatype Session = Session(stored: Stored, tokens: Tokens, phase: Phase)

  datatype World = World(
    server: Server,
    sessions: map<nat, Session>,
    sent: seq<Sent>,
    replies: set<(nat, Reply)>)

  const EMPTY_WORLD := World(EMPTY_SERVER, map[], [], {})

  datatype Step =
    | Open(sid: nat)
    | StartRerun(sid: nat)
    | EndRerun(sid: nat)
    | SubmitSignIn(sid: nat, endpoint: Endpoint, reachable: bool)
    | ClickLogout(sid: nat, reachable: bool)
    | Act(sid: nat, endpoint: Endpoint, reachable: bool)
    | PublicRead(sid: nat)
    | Serve(msg: nat, request: Request, answer: Reply)
    | Gateway(msg: nat, answer: Reply)
    | Deliver(sid: nat, answer: Reply)
    | GiveUp(sid: nat)

  // -------------------------------------------------------------------------
  // The sessions' side
  // -------------------------------------------------------------------------

  function WithSession(w: World, sid: nat, session: Session): World {
    w.(sessions := w.sessions[sid := session])
  }

  /** The session sends the request of `stage` and waits for its reply. */
  function Waiting(w: World, sid: nat, stored: Stored, tokens: Tokens, stage: Stage, purpose: Purpose): World
    requires !stage.Done?
  {
    WithSession(w.(sent := w.sent + [Outgoing(tokens, stage)]), sid,
                Session(stored, tokens, InCall(stage, |w.sent|, purpose)))
  }

  function StoredAfter(stored: Stored, tokens: Tokens, outcome: Outcome, purpose: Purpose): Stored {
    match purpose
    case SigningIn => AfterSignIn(stored, outcome)
    case SigningOut => AfterSignOut(stored, outcome)
    case Working => AfterWork(stored, outcome, tokens)
  }

  /** Whether the script goes on after a call, or stops: at `st.rerun()` or with an uncaught exception. */
  predicate GoesOn(outcome: Outcome, purpose: Purpose) {
    match purpose
    case SigningIn => IsApiError(outcome)
    case SigningOut => false
    case Working => !outcome.AuthExpired? && !outcome.Crashed?
  }

  function Finished(w: World, sid: nat, stored: Stored, tokens: Tokens, outcome: Outcome, purpose: Purpose): World {
    WithSession(w, sid, Session(StoredAfter(stored, tokens, outcome, purpose), tokens,
                                if GoesOn(outcome, purpose) then Running else Boundary))
  }

  /** Takes a call to its next stage. */
  function Proceed(w: World, sid: nat, stored: Stored, tokens: Tokens, stage: Stage, purpose: Purpose): World {
    if stage.Done? then Finished(w, sid, stored, tokens, stage.outcome, purpose)
    else Waiting(w, sid, stored, tokens, stage, purpose)
  }

  /** A public method of the client: it is unreachable when the lazy warm-up fails. */
  function Begin(w: World, sid: nat, endpoint: Endpoint, authed: bool, purpose: Purpose, reachable: bool): World
    requires sid in w.sessions
  {
    var s := w.sessions[sid];
    Proceed(w, sid, s.stored, s.tokens,
            if reachable then Start(s.tokens, endpoint, authed) else Done(ConnectionError), purpose)
  }

  function Receive(w: World, sid: nat, reply: Reply): World
    requires sid in w.sessions && w.sessions[sid].phase.InCall? && !w.sessions[sid].phase.stage.Done?
  {
    var s := w.sessions[sid];
    var (tokens, stage) := OnReply(s.tokens, s.phase.stage, reply);
    Proceed(w, sid, s.stored, tokens, stage, s.phase.purpose)
  }

  // -------------------------------------------------------------------------
  // The server's side
  // -------------------------------------------------------------------------

  /** Whether `request` is what the server makes of the message `m`. */
  predicate Decodes(m: Sent, request: Request) {
    match m
    case Health => false
    case Api(SignIn(email, password), _) => request.Login? && request.email == email && request.password == password
    case Api(SignUp(email, _), _) => request.Register? && request.email == email
    case Api(RefreshWith(token), _) => request.Rotate? && request.token == token
    case Api(SignOut(token), _) => request.Logout? && request.token == token
    case Api(Other(_, _), bearer) => bearer.Some? && request.Authenticate? && request.token == bearer.value
  }

  /** The HTTP reply to a response; an authenticated request gets its endpoint's own answer. */
  function Rendered(response: Response, answer: Reply): Reply {
    match response
    case TokenPair(status, access, refresh, user) =>
      var pair := map["access" := access, "refresh" := refresh];
      Http(status, JsonObject(if user.Some? then pair["user" := user.value] else pair))
    case NoContent => Http(204, NoBody)
    case Authenticated(_) => answer
    case Rejected(status, _) => Http(status, JsonObject(map["error" := ""]))
  }

  /** An answer made up by something between client and server: it carries no tokens. Unless `garbling`, it is
      not an undecodable 2xx body in reply to a refresh or a logout. */
  predicate MayAnswer(m: Sent, answer: Reply, garbling: bool) {
    && m.Api?
    && (m.endpoint.Other?
        || answer.Failed?
        || (answer.body.JsonObject? ==> "access" !in answer.body.fields))
    && (garbling || m.endpoint.Other? || m.endpoint.SignIn? || m.endpoint.SignUp? || !Undecodable(answer))
  }

  ghost predicate Enabled(w: World, step: Step, garbling: bool) {
    match step
    case Open(sid) => sid !in w.sessions
    case StartRerun(sid) => sid in w.sessions && w.sessions[sid].phase.Boundary?
    case EndRerun(sid) => sid in w.sessions && w.sessions[sid].phase.Running?
    case SubmitSignIn(sid, endpoint, _) =>
      && sid in w.sessions && w.sessions[sid].phase.Running? && w.sessions[sid].stored.user.None?
      && (endpoint.SignIn? || endpoint.SignUp?)
    case ClickLogout(sid, _) =>
      sid in w.sessions && w.sessions[sid].phase.Running? && w.sessions[sid].stored.user.Some?
    case Act(sid, endpoint, _) =>
      && sid in w.sessions && w.sessions[sid].phase.Running? && w.sessions[sid].stored.user.Some?
      && endpoint.Other?
    case PublicRead(sid) => sid in w.sessions && w.sessions[sid].phase.Running?
    case Serve(msg, request, _) => msg < |w.sent| && Decodes(w.sent[msg], request) && Fresh(w.server, request)
    case Gateway(msg, answer) => msg < |w.sent| && MayAnswer(w.sent[msg], answer, garbling)
    case Deliver(sid, answer) =>
      && sid in w.sessions && w.sessions[sid].phase.InCall? && !w.sessions[sid].phase.stage.Done?
      && (w.sessions[sid].phase.msg, answer) in w.replies
    case GiveUp(sid) => sid in w.sessions && w.sessions[sid].phase.InCall? && !w.sessions[sid].phase.stage.Done?
  }

  ghost function Taken(cfg: Config, w: World, step: Step, garbling: bool): World
    requires Enabled(w, step, garbling)
  {
    match step
    case Open(sid) => WithSession(w, sid, Session(SIGNED_OUT, NO_TOKENS, Boundary))
    case StartRerun(sid) =>
      var s := w.sessions[sid];
      WithSession(w, sid, Session(s.stored, StoredPair(s.stored), Running))
    case EndRerun(sid) => WithSession(w, sid, w.sessions[sid].(phase := Boundary))
    case SubmitSignIn(sid, endpoint, reachable) => Begin(w, sid, endpoint, false, SigningIn, reachable)
    case ClickLogout(sid, reachable) =>
      var s := w.sessions[sid];
      if Present(s.tokens.refresh) then Begin(w, sid, SignOut(s.tokens.refresh.value), false, SigningOut, reachable)
      else Finished(w, sid, s.stored, s.tokens, Success(None), SigningOut)
    case Act(sid, endpoint, reachable) => Begin(w, sid, endpoint, true, Working, reachable)
    case PublicRead(sid) =>
      var s := w.sessions[sid];
      WithSession(w, sid, s.(stored := Persisted(s.stored, s.tokens)))
    case Serve(msg, request, answer) =>
      var (server, response) := Handle(cfg, w.server, request);
      w.(server := server, replies := w.replies + {(msg, Rendered(response, answer))})
    case Gateway(msg, answer) => w.(replies := w.replies + {(msg, answer)})
    case Deliver(sid, answer) => Receive(w, sid, answer)
    case GiveUp(sid) => Receive(w, sid, Failed)
  }

  /** A step that is not enabled changes nothing, so every sequence of steps is a run. */
  ghost function Next(cfg: Config, w: World, step: Step, garbling: bool): World {
    if Enabled(w, step, garbling) then Taken(cfg, w, step, garbling) else w
  }

  ghost function Run(cfg: Config, steps: seq<Step>, garbling: bool): World {
    if steps == [] then EMPTY_WORLD
    else Next(cfg, Run(cfg, steps[..|steps| - 1], garbling), steps[|steps| - 1], garbling)
  }

  // -------------------------------------------------------------------------
  // Who may come to use a refresh token
  // -------------------------------------------------------------------------

  predicate Mentions(m: Sent, token: string) {
    m.Api? && (m.endpoint.RefreshWith? || m.endpoint.SignOut?) && m.endpoint.token == token
  }

  ghost predicate Mentioned(sent: seq<Sent>, token: string) {
    exists i :: 0 <= i < |sent| && Mentions(sent[i], token)
  }

  /** The pair a reply to `m` hands out. */
  function Offer(m: Sent, reply: Reply): Option<Tokens> {
    if m.Api? && !m.endpoint.Other? && !m.endpoint.SignOut? then NewPair(reply) else None
  }

  /** The session has presented its refresh token and cannot know whether it is still good. */
  predicate AtRisk(phase: Phase) {
    phase.InCall? && (phase.stage.Refreshing? || phase.purpose.SigningOut?)
  }

  /** The refresh token a session is going to present next. */
  function Held(s: Session): Option<string> {
    if AtRisk(s.phase) then None else if s.phase.InCall? then s.tokens.refresh else s.stored.refresh
  }

  predicate Offered(w: World, msg: nat, reply: Reply, token: string) {
    && msg < |w.sent| && (msg, reply) in w.replies
    && Offer(w.sent[msg], reply).Some? && Offer(w.sent[msg], reply).value.refresh == Some(token)
  }

  /** A session has a claim on the token it holds and on those in replies to the request it is waiting on. */
  ghost predicate HasClaim(w: World, s: Session, token: string) {
    || Held(s) == Some(token)
    || (s.phase.InCall? && exists reply :: Offered(w, s.phase.msg, reply, token))
  }

  predicate LiveRefresh(server: Server, token: string) {
    && token in server.issued
    && server.issued[token].kind == AuthServer.Refresh
    && IsLive(server.rows, server.issued[token].jti)
  }

  // -------------------------------------------------------------------------
  // The invariant
  // -------------------------------------------------------------------------

  predicate Together(stored: Stored) {
    stored.access.Some? == stored.refresh.Some? == stored.user.Some?
  }

  predicate NonEmpty(tokens: Tokens) {
    Present(tokens.access) && Present(tokens.refresh)
  }

  ghost predicate CallOk(s: Session, sent: seq<Sent>)
    requires s.phase.InCall?
  {
    var stage, msg := s.phase.stage, s.phase.msg;
    && !stage.Done?
    && msg < |sent|
    && sent[msg] == Outgoing(s.tokens, stage)
    && match s.phase.purpose
       case SigningIn =>
         && s.stored == SIGNED_OUT && s.tokens == NO_TOKENS
         && stage.First? && !stage.authed && (stage.endpoint.SignIn? || stage.endpoint.SignUp?)
       case SigningOut =>
         && s.stored.user.Some? && s.tokens == StoredPair(s.stored) && NonEmpty(s.tokens)
         && stage.First? && !stage.authed && stage.endpoint == SignOut(s.tokens.refresh.value)
       case Working =>
         && s.stored.user.Some? && NonEmpty(s.tokens)
         && stage.endpoint.Other? && (stage.First? ==> stage.authed)
         && (if stage.Retry? then s.stored.refresh.Some? && Mentioned(sent, s.stored.refresh.value)
             else s.tokens == StoredPair(s.stored))
  }

  ghost predicate SessionOk(s: Session, sent: seq<Sent>) {
    && Together(s.stored)
    && (s.stored.user.Some? ==> NonEmpty(StoredPair(s.stored)))
    && match s.phase
       case Boundary => true
       case Running => s.tokens == StoredPair(s.stored)
       case InCall(_, _, _) => CallOk(s, sent)
  }

  ghost predicate ClaimOk(w: World, token: string) {
    LiveRefresh(w.server, token) && !Mentioned(w.sent, token)
  }

  /** A reply on the network: what it hands out is issued and complete, and it is not an undecodable answer to
      a refresh or a logout. */
  predicate ReplyOk(w: World, msg: nat, reply: Reply) {
    && msg < |w.sent| && w.sent[msg].Api?
    && (Offer(w.sent[msg], reply).Some? ==>
          && NonEmpty(Offer(w.sent[msg], reply).value)
          && Offer(w.sent[msg], reply).value.refresh.value in w.server.issued)
    && (w.sent[msg].endpoint.SignIn? || w.sent[msg].endpoint.SignUp? ==>
          reply.Http? && reply.body.JsonObject? && "access" in reply.body.fields ==>
            "refresh" in reply.body.fields && "user" in reply.body.fields)
    && (w.sent[msg].endpoint.RefreshWith? || w.sent[msg].endpoint.SignOut? ==> !Undecodable(reply))
  }

  predicate SameCall(a: Session, b: Session) {
    a.phase.InCall? && b.phase.InCall? && a.phase.msg == b.phase.msg
  }

  /** No two sessions store the same refresh token. */
  ghost predicate StoredApart(w: World) {
    forall a, b | a in w.sessions && b in w.sessions && a != b ::
      w.sessions[a].stored.refresh.Some? ==> w.sessions[a].stored.refresh != w.sessions[b].stored.refresh
  }

  ghost predicate WorldInv(w: World) {
    && Inv(w.server)
    && StoredApart(w)
    && (forall sid :: sid in w.sessions ==> SessionOk(w.sessions[sid], w.sent))
    && (forall sid, t :: sid in w.sessions && HasClaim(w, w.sessions[sid], t) ==> ClaimOk(w, t))
    && (forall a, b, t | a in w.sessions && b in w.sessions ::
          HasClaim(w, w.sessions[a], t) && HasClaim(w, w.sessions[b], t) ==> a == b)
    && (forall t :: Mentioned(w.sent, t) ==> t in w.server.issued)
    && (forall msg, reply :: (msg, reply) in w.replies ==> ReplyOk(w, msg, reply))
    && (forall a, b | a in w.sessions && b in w.sessions && SameCall(w.sessions[a], w.sessions[b]) :: a == b)
  }

  // -------------------------------------------------------------------------
  // The server's steps keep it
  // -------------------------------------------------------------------------

  /** A request leaves every live refresh token live that it does not itself present. */
  lemma OthersStayLive(cfg: Config, s: Server, req: Request, token: string)
    requires Inv(s) && Fresh(s, req) && LiveRefresh(s, token)
    requires req.Rotate? || req.Logout? ==> req.token != token
    ensures LiveRefresh(Handle(cfg, s, req).0, token)
  {
  }

  /** The pair a response hands out is new, and its refresh token is live. */
  lemma PairIsNew(cfg: Config, s: Server, m: Sent, req: Request, answer: Reply)
    requires Inv(s) && Fresh(s, req) && Decodes(m, req)
    ensures var (s', response) := Handle(cfg, s, req);
            var offer := Offer(m, Rendered(response, answer));
            && (forall t :: t in s.issued ==> t in s'.issued)
            && (offer.Some? ==>
                  && NonEmpty(offer.value)
                  && offer.value.refresh.value !in s.issued
                  && LiveRefresh(s', offer.value.refresh.value))
  {
  }

  lemma AnswersAreOk(cfg: Config, w: World, msg: nat, req: Request, answer: Reply)
    requires WorldInv(w) && Enabled(w, Serve(msg, req, answer), false)
    ensures ReplyOk(Taken(cfg, w, Serve(msg, req, answer), false), msg, Rendered(Handle(cfg, w.server, req).1, answer))
  {
    PairIsNew(cfg, w.server, w.sent[msg], req, answer);
  }

  lemma ClaimsAfterServe(cfg: Config, w: World, msg: nat, req: Request, answer: Reply, sid: nat, t: string)
    requires WorldInv(w) && Enabled(w, Serve(msg, req, answer), false)
    requires sid in w.sessions && HasClaim(Taken(cfg, w, Serve(msg, req, answer), false), w.sessions[sid], t)
    ensures ClaimOk(Taken(cfg, w, Serve(msg, req, answer), false), t)
    ensures t in w.server.issued ==> HasClaim(w, w.sessions[sid], t)
    ensures t !in w.server.issued ==> w.sessions[sid].phase.InCall? && w.sessions[sid].phase.msg == msg
  {
    var w' := Taken(cfg, w, Serve(msg, req, answer), false);
    var s := w.sessions[sid];
    var reply := Rendered(Handle(cfg, w.server, req).1, answer);
    PairIsNew(cfg, w.server, w.sent[msg], req, answer);
    if HasClaim(w, s, t) {
      assert HasClaim(w, w.sessions[sid], t) && ClaimOk(w, t);
      if req.Rotate? || req.Logout? {
        assert Mentions(w.sent[msg], req.token);
        assert Mentioned(w.sent, req.token);
      }
      OthersStayLive(cfg, w.server, req, t);
    } else {
      var r :| Offered(w', s.phase.msg, r, t);
      assert (s.phase.msg, r) == (msg, reply) by {
        assert !Offered(w, s.phase.msg, r, t);
      }
      assert !Mentioned(w.sent, t);
    }
  }

  lemma ServeKeepsInv(cfg: Config, w: World, msg: nat, req: Request, answer: Reply)
    requires WorldInv(w) && Enabled(w, Serve(msg, req, answer), false)
    ensures WorldInv(Taken(cfg, w, Serve(msg, req, answer), false))
  {
    var w' := Taken(cfg, w, Serve(msg, req, answer), false);
    HandleKeepsInv(cfg, w.server, req);
    PairIsNew(cfg, w.server, w.sent[msg], req, answer);
    AnswersAreOk(cfg, w, msg, req, answer);
    forall sid, t | sid in w'.sessions && HasClaim(w', w'.sessions[sid], t)
      ensures ClaimOk(w', t)
    {
      ClaimsAfterServe(cfg, w, msg, req, answer, sid, t);
    }
    forall a, b, t | a in w'.sessions && b in w'.sessions
                     && HasClaim(w', w'.sessions[a], t) && HasClaim(w', w'.sessions[b], t)
      ensures a == b
    {
      ClaimsAfterServe(cfg, w, msg, req, answer, a, t);
      ClaimsAfterServe(cfg, w, msg, req, answer, b, t);
    }
    forall i, r | (i, r) in w'.replies
      ensures ReplyOk(w', i, r)
    {
      if (i, r) in w.replies {
        assert ReplyOk(w, i, r);
      }
    }
  }

  lemma GatewayKeepsInv(cfg: Config, w: World, msg: nat, answer: Reply)
    requires WorldInv(w) && Enabled(w, Gateway(msg, answer), false)
    ensures WorldInv(Taken(cfg, w, Gateway(msg, answer), false))
  {
    var w' := Taken(cfg, w, Gateway(msg, answer), false);
    assert Offer(w.sent[msg], answer).None?;
    forall sid, t | sid in w.sessions && HasClaim(w', w.sessions[sid], t)
      ensures HasClaim(w, w.sessions[sid], t)
    {
      var s := w.sessions[sid];
      if Held(s) != Some(t) {
        var reply :| Offered(w', s.phase.msg, reply, t);
        assert Offered(w, s.phase.msg, reply, t);
      }
    }
    forall t | ClaimOk(w, t)
      ensures ClaimOk(w', t)
    {
    }
    forall i, r | (i, r) in w'.replies
      ensures ReplyOk(w', i, r)
    {
      if (i, r) in w.replies {
        assert ReplyOk(w, i, r);
      }
    }
  }

  // -------------------------------------------------------------------------
  // The sessions' steps keep it
  // -------------------------------------------------------------------------

  lemma StoredIsClaimedOrMentioned(w: World, sid: nat)
    requires WorldInv(w) && sid in w.sessions && w.sessions[sid].stored.refresh.Some?
    ensures var t := w.sessions[sid].stored.refresh.value;
            HasClaim(w, w.sessions[sid], t) || Mentioned(w.sent, t)
  {
    var s := w.sessions[sid];
    if AtRisk(s.phase) {
      assert Mentions(w.sent[s.phase.msg], s.stored.refresh.value);
    }
  }

  /** What a session has a claim on, no other session stores. */
  lemma OnlyTheClaimantStores(w: World, sid: nat, t: string)
    requires WorldInv(w) && sid in w.sessions && HasClaim(w, w.sessions[sid], t)
    ensures forall other :: other in w.sessions && other != sid ==> w.sessions[other].stored.refresh != Some(t)
  {
    assert ClaimOk(w, t);
    forall other | other in w.sessions && other != sid
      ensures w.sessions[other].stored.refresh != Some(t)
    {
      if w.sessions[other].stored.refresh == Some(t) {
        StoredIsClaimedOrMentioned(w, other);
      }
    }
  }

  lemma StoredStaysApart(w: World, sid: nat, s': Session, extra: seq<Sent>)
    requires WorldInv(w)
    requires s'.stored.refresh.Some? ==>
               && sid in w.sessions
               && (w.sessions[sid].stored.refresh == s'.stored.refresh
                   || HasClaim(w, w.sessions[sid], s'.stored.refresh.value))
    ensures StoredApart(WithSession(w.(sent := w.sent + extra), sid, s'))
  {
    if s'.stored.refresh.Some? && HasClaim(w, w.sessions[sid], s'.stored.refresh.value) {
      OnlyTheClaimantStores(w, sid, s'.stored.refresh.value);
    }
  }

  lemma MentionedByNow(w: World, sid: nat, s': Session, extra: seq<Sent>)
    requires WorldInv(w)
    requires forall t :: Mentioned(extra, t) ==> sid in w.sessions && HasClaim(w, w.sessions[sid], t)
    ensures forall t :: Mentioned(w.sent + extra, t) ==>
              t in w.server.issued && (Mentioned(w.sent, t) || Mentioned(extra, t))
  {
    forall t | Mentioned(w.sent + extra, t)
      ensures t in w.server.issued && (Mentioned(w.sent, t) || Mentioned(extra, t))
    {
      var i :| 0 <= i < |w.sent + extra| && Mentions((w.sent + extra)[i], t);
      if i >= |w.sent| {
        assert Mentions(extra[i - |w.sent|], t);
        assert Mentioned(extra, t);
        assert HasClaim(w, w.sessions[sid], t);
        assert ClaimOk(w, t);
      }
    }
  }

  /** One session moves, sending at most one message. Its claims only shrink, and a refresh token the message
      mentions is one it had a claim on and gives up. */
  lemma MoveKeepsInv(w: World, sid: nat, s': Session, extra: seq<Sent>)
    requires WorldInv(w) && |extra| <= 1
    requires SessionOk(s', w.sent + extra)
    requires s'.phase.InCall? ==> extra != [] && s'.phase.msg == |w.sent|
    requires Held(s').Some? ==> sid in w.sessions && HasClaim(w, w.sessions[sid], Held(s').value)
    requires s'.stored.refresh.Some? ==>
               && sid in w.sessions
               && (w.sessions[sid].stored.refresh == s'.stored.refresh
                   || HasClaim(w, w.sessions[sid], s'.stored.refresh.value))
    requires forall t :: Mentioned(extra, t) ==>
                           sid in w.sessions && HasClaim(w, w.sessions[sid], t) && Held(s') != Some(t)
    ensures WorldInv(WithSession(w.(sent := w.sent + extra), sid, s'))
  {
    var w' := WithSession(w.(sent := w.sent + extra), sid, s');
    StoredStaysApart(w, sid, s', extra);
    MentionedByNow(w, sid, s', extra);
    forall x | x in w'.sessions
      ensures SessionOk(w'.sessions[x], w'.sent)
    {
      if x != sid {
        SessionStaysOk(w.sessions[x], w.sent, extra);
      }
    }
    forall x, t | x in w'.sessions && HasClaim(w', w'.sessions[x], t)
      ensures x in w.sessions && HasClaim(w, w.sessions[x], t) && ClaimOk(w', t)
    {
      ClaimsShrink(w, sid, s', extra, x, t);
      assert ClaimOk(w, t);
    }
    forall a, b, t | a in w'.sessions && b in w'.sessions
                     && HasClaim(w', w'.sessions[a], t) && HasClaim(w', w'.sessions[b], t)
      ensures a == b
    {
      ClaimsShrink(w, sid, s', extra, a, t);
      ClaimsShrink(w, sid, s', extra, b, t);
    }
    forall i, r | (i, r) in w'.replies
      ensures ReplyOk(w', i, r)
    {
      assert ReplyOk(w, i, r);
    }
  }

  lemma SessionStaysOk(s: Session, sent: seq<Sent>, extra: seq<Sent>)
    requires SessionOk(s, sent)
    ensures SessionOk(s, sent + extra)
  {
    if s.stored.refresh.Some? && Mentioned(sent, s.stored.refresh.value) {
      var i :| 0 <= i < |sent| && Mentions(sent[i], s.stored.refresh.value);
      assert Mentions((sent + extra)[i], s.stored.refresh.value);
    }
  }

  lemma ClaimsShrink(w: World, sid: nat, s': Session, extra: seq<Sent>, x: nat, t: string)
    requires WorldInv(w)
    requires s'.phase.InCall? ==> s'.phase.msg == |w.sent|
    requires Held(s').Some? ==> sid in w.sessions && HasClaim(w, w.sessions[sid], Held(s').value)
    requires var w' := WithSession(w.(sent := w.sent + extra), sid, s');
             x in w'.sessions && HasClaim(w', w'.sessions[x], t)
    ensures x in w.sessions && HasClaim(w, w.sessions[x], t)
    ensures x == sid ==> Held(s') == Some(t)
  {
    var w' := WithSession(w.(sent := w.sent + extra), sid, s');
    var s := w'.sessions[x];
    if Held(s) != Some(t) {
      var reply :| Offered(w', s.phase.msg, reply, t);
      assert ReplyOk(w, s.phase.msg, reply);
      assert Offered(w, s.phase.msg, reply, t);
    }
  }

  /** What a session may know when its call moves to `stage`: the pair it has then is one it had a claim on. */
  ghost predicate StageOk(w: World, sid: nat, stored: Stored, tokens: Tokens, stage: Stage, purpose: Purpose) {
    && sid in w.sessions && stored == w.sessions[sid].stored
    && Together(stored)
    && (stored.user.Some? ==> NonEmpty(StoredPair(stored)))
    && match purpose
       case SigningIn =>
         && stored == SIGNED_OUT && tokens == NO_TOKENS
         && (stage.Done? ==> SignInOk(w, sid, stage.outcome))
         && (!stage.Done? ==> stage.First? && !stage.authed && (stage.endpoint.SignIn? || stage.endpoint.SignUp?))
       case SigningOut =>
         && stored.user.Some? && tokens == StoredPair(stored)
         && (stage.Done? ==> !stage.outcome.Crashed?)
         && (!stage.Done? ==>
               && stage == First(SignOut(tokens.refresh.value), false)
               && HasClaim(w, w.sessions[sid], tokens.refresh.value))
       case Working =>
         && stored.user.Some?
         && (if stage == Done(AuthExpired) then tokens == NO_TOKENS
             else NonEmpty(tokens) && HasClaim(w, w.sessions[sid], tokens.refresh.value))
         && (!stage.Done? ==> stage.endpoint.Other?)
         && (stage.First? ==> stage.authed)
         && (stage.First? || stage.Refreshing? ==> tokens == StoredPair(stored))
         && (stage.Retry? ==> Mentioned(w.sent, stored.refresh.value))
  }

  /** A completed sign-in writes either nothing or a whole pair the session had a claim on. */
  ghost predicate SignInOk(w: World, sid: nat, outcome: Outcome)
    requires sid in w.sessions
  {
    var stored := AfterSignIn(SIGNED_OUT, outcome);
    || stored == SIGNED_OUT
    || (outcome.Success? && stored.user.Some? && NonEmpty(StoredPair(stored))
        && HasClaim(w, w.sessions[sid], stored.refresh.value))
  }

  lemma ProceedKeepsInv(w: World, sid: nat, stored: Stored, tokens: Tokens, stage: Stage, purpose: Purpose)
    requires WorldInv(w) && StageOk(w, sid, stored, tokens, stage, purpose)
    ensures WorldInv(Proceed(w, sid, stored, tokens, stage, purpose))
  {
    var w' := Proceed(w, sid, stored, tokens, stage, purpose);
    var s' := w'.sessions[sid];
    if stage.Done? {
      assert w' == WithSession(w.(sent := w.sent + []), sid, s');
      MoveKeepsInv(w, sid, s', []);
    } else {
      var m := Outgoing(tokens, stage);
      forall t | Mentioned([m], t)
        ensures HasClaim(w, w.sessions[sid], t) && Held(s') != Some(t)
      {
        assert Mentions(m, t);
      }
      if stage.Retry? {
        var i :| 0 <= i < |w.sent| && Mentions(w.sent[i], stored.refresh.value);
        assert Mentions((w.sent + [m])[i], stored.refresh.value);
      }
      MoveKeepsInv(w, sid, s', [m]);
    }
  }

  lemma ReceiveStageOk(w: World, sid: nat, reply: Reply)
    requires WorldInv(w) && sid in w.sessions && w.sessions[sid].phase.InCall?
    requires reply.Failed? || (w.sessions[sid].phase.msg, reply) in w.replies
    requires !w.sessions[sid].phase.stage.Done?
    ensures var s := w.sessions[sid];
            var (tokens, stage) := OnReply(s.tokens, s.phase.stage, reply);
            StageOk(w, sid, s.stored, tokens, stage, s.phase.purpose)
  {
    var s := w.sessions[sid];
    var msg := s.phase.msg;
    var (tokens, stage) := OnReply(s.tokens, s.phase.stage, reply);
    if (msg, reply) in w.replies {
      assert ReplyOk(w, msg, reply);
    }
    if NewPair(reply).Some? && NewPair(reply).value.refresh.Some? {
      assert (msg, reply) in w.replies && Offer(w.sent[msg], reply).Some? ==>
          Offered(w, msg, reply, NewPair(reply).value.refresh.value);
    }
    assert s.phase.stage.Refreshing? ==> Mentions(w.sent[msg], s.tokens.refresh.value);
  }

  lemma SessionStepKeepsInv(cfg: Config, w: World, step: Step)
    requires WorldInv(w) && Enabled(w, step, false) && !step.Serve? && !step.Gateway?
    ensures WorldInv(Taken(cfg, w, step, false))
  {
    match step
    case Open(sid) => SettledKeepsInv(w, sid, Session(SIGNED_OUT, NO_TOKENS, Boundary));
    case StartRerun(sid) =>
      var s := w.sessions[sid];
      SettledKeepsInv(w, sid, Session(s.stored, StoredPair(s.stored), Running));
    case EndRerun(sid) => SettledKeepsInv(w, sid, w.sessions[sid].(phase := Boundary));
    case PublicRead(sid) => SettledKeepsInv(w, sid, Taken(cfg, w, step, false).sessions[sid]);
    case SubmitSignIn(sid, endpoint, reachable) =>
      var s := w.sessions[sid];
      ProceedKeepsInv(w, sid, s.stored, s.tokens,
                      if reachable then First(endpoint, false) else Done(ConnectionError), SigningIn);
    case ClickLogout(sid, reachable) =>
      var s := w.sessions[sid];
      ProceedKeepsInv(w, sid, s.stored, s.tokens,
                      if reachable then First(SignOut(s.tokens.refresh.value), false) else Done(ConnectionError),
                      SigningOut);
    case Act(sid, endpoint, reachable) =>
      var s := w.sessions[sid];
      ProceedKeepsInv(w, sid, s.stored, s.tokens,
                      if reachable then First(endpoint, true) else Done(ConnectionError), Working);
    case Deliver(sid, answer) =>
      var s := w.sessions[sid];
      var (tokens, stage) := OnReply(s.tokens, s.phase.stage, answer);
      ReceiveStageOk(w, sid, answer);
      ProceedKeepsInv(w, sid, s.stored, tokens, stage, s.phase.purpose);
    case GiveUp(sid) =>
      var s := w.sessions[sid];
      var (tokens, stage) := OnReply(s.tokens, s.phase.stage, Failed);
      ReceiveStageOk(w, sid, Failed);
      ProceedKeepsInv(w, sid, s.stored, tokens, stage, s.phase.purpose);
  }

  /** A session outside a call changes without sending and without a new claim. */
  lemma SettledKeepsInv(w: World, sid: nat, s': Session)
    requires WorldInv(w) && !s'.phase.InCall? && SessionOk(s', w.sent)
    requires Held(s').Some? ==> sid in w.sessions && Held(w.sessions[sid]) == Held(s')
    ensures WorldInv(WithSession(w, sid, s'))
  {
    assert w.sent + [] == w.sent;
    MoveKeepsInv(w, sid, s', []);
  }

  lemma NextKeepsInv(cfg: Config, w: World, step: Step)
    requires WorldInv(w)
    ensures WorldInv(Next(cfg, w, step, false))
  {
    if Enabled(w, step, false) {
      match step
      case Serve(msg, request, answer) => ServeKeepsInv(cfg, w, msg, request, answer);
      case Gateway(msg, answer) => GatewayKeepsInv(cfg, w, msg, answer);
      case _ => SessionStepKeepsInv(cfg, w, step);
    }
  }

  lemma {:induction false} RunKeepsInv(cfg: Config, steps: seq<Step>)
    ensures WorldInv(Run(cfg, steps, false))
  {
    if steps != [] {
      RunKeepsInv(cfg, steps[..|steps| - 1]);
      NextKeepsInv(cfg, Run(cfg, steps[..|steps| - 1], false), steps[|steps| - 1]);
    }
  }

  // -------------------------------------------------------------------------
  // What a rerun finds
  // -------------------------------------------------------------------------

  /** The three token keys are there together or not at all, a stored refresh token names an unrevoked row of
      an issued token, and no other session stores the same one. */
  ghost predicate SafeToRerun(w: World, sid: nat)
    requires sid in w.sessions
  {
    var stored := w.sessions[sid].stored;
    && Together(stored)
    && (stored.refresh.Some? ==>
          && LiveRefresh(w.server, stored.refresh.value)
          && forall other :: other in w.sessions && other != sid ==>
                               w.sessions[other].stored.refresh != stored.refresh)
  }

  /** In every reachable state of any number of sessions and one server, whatever the network loses, delays or
      duplicates, every session that is between reruns is safe to rerun. */
  lemma EveryRerunIsSafe(cfg: Config, steps: seq<Step>)
    ensures var w := Run(cfg, steps, false);
            forall sid :: sid in w.sessions && !w.sessions[sid].phase.InCall? ==> SafeToRerun(w, sid)
  {
    var w := Run(cfg, steps, false);
    RunKeepsInv(cfg, steps);
    forall sid | sid in w.sessions && !w.sessions[sid].phase.InCall?
      ensures SafeToRerun(w, sid)
    {
      var s := w.sessions[sid];
      if s.stored.refresh.Some? {
        assert HasClaim(w, s, s.stored.refresh.value);
        assert ClaimOk(w, s.stored.refresh.value);
      }
    }
  }

  // -------------------------------------------------------------------------
  // Why the network may not garble the answer to a refresh or a logout
  // -------------------------------------------------------------------------

  /** An undecodable 2xx answer to a refresh or a logout escapes every handler. The session is then between
      reruns with the pair it presented, and safe to rerun exactly when the server did not use that pair up. */
  lemma GarbledAnswer(w: World, sid: nat, reply: Reply)
    requires sid in w.sessions && AtRisk(w.sessions[sid].phase) && SessionOk(w.sessions[sid], w.sent)
    requires StoredApart(w) && Undecodable(reply)
    ensures Receive(w, sid, reply).sessions[sid].phase.Boundary?
    ensures Receive(w, sid, reply).sessions[sid].stored == w.sessions[sid].stored
    ensures SafeToRerun(Receive(w, sid, reply), sid) <==> LiveRefresh(w.server, w.sessions[sid].tokens.refresh.value)
  {
    var w' := Receive(w, sid, reply);
    assert w'.sessions == w.sessions[sid := w'.sessions[sid]];
  }

  /** So in every reachable state, a garbled answer to a refresh or a logout leaves a safe session exactly when
      the token it presented is still live. */
  lemma GarbledAnswerAfterRun(cfg: Config, steps: seq<Step>, sid: nat, reply: Reply)
    requires sid in Run(cfg, steps, false).sessions && AtRisk(Run(cfg, steps, false).sessions[sid].phase)
    requires Undecodable(reply)
    ensures var w := Run(cfg, steps, false);
            && SessionOk(w.sessions[sid], w.sent)
            && (SafeToRerun(Receive(w, sid, reply), sid)
                <==> LiveRefresh(w.server, w.sessions[sid].tokens.refresh.value))
  {
    var w := Run(cfg, steps, false);
    RunKeepsInv(cfg, steps);
    assert SessionOk(w.sessions[sid], w.sent);
    GarbledAnswer(w, sid, reply);
  }

  lemma RunStep(cfg: Config, steps: seq<Step>, step: Step, garbling: bool)
    ensures Run(cfg, steps + [step], garbling) == Next(cfg, Run(cfg, steps, garbling), step, garbling)
  {
    assert (steps + [step])[..|steps|] == steps;
  }

  /** The steps of a user who registers, logs out, and gets an HTML page for an answer. */
  function GarbledLogout(): seq<Step> {
    var mint := Mint("a", "ja", 0.0, "r", "jr", 0.0, "row", 0.0);
    [ Open(0), StartRerun(0), SubmitSignIn(0, SignUp("u", "p"), true),
      Serve(0, Register("u", "hash", "id", 0.0, mint), Failed),
      Deliver(0, Http(201, JsonObject(map["access" := "a", "refresh" := "r", "user" := "id"]))),
      StartRerun(0), ClickLogout(0, true), Serve(1, Logout("r", 0.0, 0.0), Failed),
      Gateway(1, Http(200, NotJson)), Deliver(0, Http(200, NotJson))]
  }

  /** With such answers allowed, an unsafe session is reachable. */
  lemma GarblingReachesUnsafe(cfg: Config)
    requires cfg.refreshTtlSeconds > 0
    ensures exists steps :: var w := Run(cfg, steps, true);
                            0 in w.sessions && w.sessions[0].phase.Boundary? && !SafeToRerun(w, 0)
  {
    var steps := GarbledLogout();
    var w8 := LoggedOut(cfg);
    var w9 := Next(cfg, w8, steps[8], true);
    RunStep(cfg, steps[..8], steps[8], true);
    assert steps[..9] == steps[..8] + [steps[8]];
    RunStep(cfg, steps[..9], steps[9], true);
    assert steps == steps[..9] + [steps[9]];
    GarbledAnswer(w9, 0, Http(200, NotJson));
    var w := Run(cfg, steps, true);
    assert 0 in w.sessions && w.sessions[0].phase.Boundary? && !SafeToRerun(w, 0);
  }

  /** The run up to the served logout. */
  lemma LoggedOut(cfg: Config) returns (w: World)
    requires cfg.refreshTtlSeconds > 0
    ensures w == Run(cfg, GarbledLogout()[..8], true)
    ensures w.sessions == map[0 := Session(Stored(Some("a"), Some("r"), Some("id")), Tokens(Some("a"), Some("r")),
                                           InCall(First(SignOut("r"), false), 1, SigningOut))]
    ensures |w.sent| == 2 && w.sent[1] == Api(SignOut("r"), None)
    ensures !LiveRefresh(w.server, "r")
  {
    var steps := GarbledLogout();
    var w4 := SignedUp(cfg);
    var w5 := Next(cfg, w4, steps[4], true);
    assert w5.sessions[0] == Session(Stored(Some("a"), Some("r"), Some("id")), NO_TOKENS, Boundary);
    RunStep(cfg, steps[..4], steps[4], true);
    assert steps[..5] == steps[..4] + [steps[4]];
    var w6 := Next(cfg, w5, steps[5], true);
    RunStep(cfg, steps[..5], steps[5], true);
    assert steps[..6] == steps[..5] + [steps[5]];
    var w7 := Next(cfg, w6, steps[6], true);
    RunStep(cfg, steps[..6], steps[6], true);
    assert steps[..7] == steps[..6] + [steps[6]];
    assert w7.sent[1] == Api(SignOut("r"), None);
    w := Next(cfg, w7, steps[7], true);
    RunStep(cfg, steps[..7], steps[7], true);
    assert steps[..8] == steps[..7] + [steps[7]];
  }

  /** The run up to the served registration. */
  lemma SignedUp(cfg: Config) returns (w: World)
    ensures w == Run(cfg, GarbledLogout()[..4], true)
    ensures w.sessions == map[0 := Session(SIGNED_OUT, NO_TOKENS, InCall(First(SignUp("u", "p"), false), 0, SigningIn))]
    ensures w.sent == [Api(SignUp("u", "p"), None)]
    ensures (0, Http(201, JsonObject(map["access" := "a", "refresh" := "r", "user" := "id"]))) in w.replies
    ensures "r" in w.server.issued
    ensures w.server.issued["r"] == Claims("id", 0, cfg.refreshTtlSeconds, "jr", AuthServer.Refresh)
    ensures IsLive(w.server.rows, "jr")
  {
    var steps := GarbledLogout();
    var w1 := Next(cfg, EMPTY_WORLD, steps[0], true);
    RunStep(cfg, [], steps[0], true);
    assert steps[..1] == [] + [steps[0]];
    var w2 := Next(cfg, w1, steps[1], true);
    RunStep(cfg, steps[..1], steps[1], true);
    assert steps[..2] == steps[..1] + [steps[1]];
    var w3 := Next(cfg, w2, steps[2], true);
    RunStep(cfg, steps[..2], steps[2], true);
    assert steps[..3] == steps[..2] + [steps[2]];
    w := Next(cfg, w3, steps[3], true);
    RunStep(cfg, steps[..3], steps[3], true);
    assert steps[..4] == steps[..3] + [steps[3]];
  }
}
