/** What one client call may do: a small-step machine that turns each HTTP reply into the next request or
    into the call's outcome, and the laws every call obeys. */
module ApiProtocol {
  import opened Common

  // -------------------------------------------------------------------------
  // Messages
  // -------------------------------------------------------------------------

  /** The API routes a call can name; the auth routes carry their body. */
  datatype Endpoint =
    | SignIn(email: string, password: string)
    | SignUp(email: string, password: string)
    | RefreshWith(token: string)
    | SignOut(token: string)
    | Other(method_: string, path: string)

  /** One outgoing HTTP request and the bearer token in its Authorization header. */
  datatype Sent = Health | Api(endpoint: Endpoint, bearer: Option<string>)

  /** A body as `resp.json()` sees it; field values are rendered by `str`. */
  datatype Body = NoBody | NotJson | JsonObject(fields: map<string, string>) | JsonOther

  /** `Failed` stands for any `requests.RequestException`. */
  datatype Reply = Failed | Http(status: int, body: Body)

  datatype Outcome =
    | Success(fields: Option<map<string, string>>)
    | ClientError(status: int)
    | ServerError(status: int)
    | ConnectionError
    | AuthExpired
    | RateLimited
    | Crashed

  /** The outcomes that are subclasses of ApiError; `Crashed` is the ValueError of an undecodable 2xx body. */
  predicate IsApiError(o: Outcome) {
    !o.Success? && !o.Crashed?
  }

  function HandleResponse(status: int, body: Body): Outcome {
    if 200 <= status < 300 then
      if status == 204 || body.NoBody? then Success(None)
      else if body.NotJson? then Crashed
      else if body.JsonOther? then Success(Some(map["data" := ""]))
      else Success(Some(body.fields))
    else if status == 429 then RateLimited
    else if 400 <= status < 500 then ClientError(status)
    else ServerError(status)
  }

  // -------------------------------------------------------------------------
  // The call machine
  // -------------------------------------------------------------------------

  datatype Tokens = Tokens(access: Option<string>, refresh: Option<string>)

  const NO_TOKENS := Tokens(None, None)

  /** Python truth of a stored token. */
  predicate Present(token: Option<string>) {
    token.Some? && token.value != ""
  }

  datatype Stage =
    | First(endpoint: Endpoint, authed: bool)
    | Refreshing(endpoint: Endpoint)
    | Retry(endpoint: Endpoint)
    | Done(outcome: Outcome)

  function Start(tokens: Tokens, endpoint: Endpoint, authed: bool): Stage {
    if authed && !Present(tokens.access) then Done(AuthExpired) else First(endpoint, authed)
  }

  /** The request a stage is waiting on. */
  function Outgoing(tokens: Tokens, stage: Stage): Sent
    requires !stage.Done?
  {
    match stage
    case First(endpoint, authed) => Api(endpoint, if authed then tokens.access else None)
    case Refreshing(_) => Api(RefreshWith(if tokens.refresh.Some? then tokens.refresh.value else ""), None)
    case Retry(endpoint) => Api(endpoint, tokens.access)
  }

  /** The pair a refresh reply carries, if it is a 2xx JSON object with both keys. */
  function NewPair(reply: Reply): Option<Tokens> {
    if reply.Failed? then None
    else match HandleResponse(reply.status, reply.body)
      case Success(Some(fields)) =>
        if "access" in fields && "refresh" in fields then Some(Tokens(Some(fields["access"]), Some(fields["refresh"])))
        else None
      case _ => None
  }

  predicate Undecodable(reply: Reply) {
    reply.Http? && HandleResponse(reply.status, reply.body).Crashed?
  }

  function OnReply(tokens: Tokens, stage: Stage, reply: Reply): (Tokens, Stage)
    requires !stage.Done?
  {
    match stage
    case First(endpoint, authed) =>
      if reply.Failed? then (tokens, Done(ConnectionError))
      else if authed && reply.status == 401 then
        if Present(tokens.refresh) then (tokens, Refreshing(endpoint)) else (NO_TOKENS, Done(AuthExpired))
      else (tokens, Done(HandleResponse(reply.status, reply.body)))
    case Refreshing(endpoint) =>
      if NewPair(reply).Some? then (NewPair(reply).value, Retry(endpoint))
      else if Undecodable(reply) then (tokens, Done(Crashed))
      else (NO_TOKENS, Done(AuthExpired))
    case Retry(_) =>
      if reply.Failed? then (tokens, Done(ConnectionError))
      else if reply.status == 401 then (NO_TOKENS, Done(AuthExpired))
      else (tokens, Done(HandleResponse(reply.status, reply.body)))
  }

  function Remaining(stage: Stage): nat {
    match stage
    case First(_, _) => 3
    case Refreshing(_) => 2
    case Retry(_) => 1
    case Done(_) => 0
  }

  datatype Call = Call(tokens: Tokens, outcome: Outcome, sent: seq<Sent>)

  /** A whole call against a stream of replies, the next of which is number `at`. */
  function Drive(tokens: Tokens, stage: Stage, replies: nat -> Reply, at: nat): Call
    decreases Remaining(stage)
  {
    if stage.Done? then Call(tokens, stage.outcome, [])
    else
      var (tokens', stage') := OnReply(tokens, stage, replies(at));
      var rest := Drive(tokens', stage', replies, at + 1);
      rest.(sent := [Outgoing(tokens, stage)] + rest.sent)
  }

  function RunCall(tokens: Tokens, endpoint: Endpoint, authed: bool, replies: nat -> Reply, at: nat): Call {
    Drive(tokens, Start(tokens, endpoint, authed), replies, at)
  }

  // -------------------------------------------------------------------------
  // Laws of every call, for every stream of replies
  // -------------------------------------------------------------------------

  /** One unfolding of a call that is not over. */
  lemma DriveStep(tokens: Tokens, stage: Stage, replies: nat -> Reply, at: nat) returns (rest: Call)
    requires !stage.Done?
    ensures var (tokens', stage') := OnReply(tokens, stage, replies(at));
            && rest == Drive(tokens', stage', replies, at + 1)
            && Drive(tokens, stage, replies, at) == rest.(sent := [Outgoing(tokens, stage)] + rest.sent)
  {
    var (tokens', stage') := OnReply(tokens, stage, replies(at));
    rest := Drive(tokens', stage', replies, at + 1);
  }

  /** An authenticated call sends the request, at most one refresh and at most one retry, in that order; a
      public call sends exactly its request. The refresh presents the stored refresh token and happens exactly
      when the first reply is a 401 and there is a refresh token; the retry carries the access token of the
      refresh reply. */
  lemma RequestsOfACall(tokens: Tokens, endpoint: Endpoint, authed: bool, replies: nat -> Reply, at: nat)
    ensures var sent := RunCall(tokens, endpoint, authed, replies, at).sent;
            && |sent| <= (if authed then 3 else 1)
            && (sent == [] <==> authed && !Present(tokens.access))
            && (sent != [] ==> sent[0] == Api(endpoint, if authed then tokens.access else None))
            && (|sent| >= 2 <==> && sent != [] && authed && replies(at).Http? && replies(at).status == 401
                                 && Present(tokens.refresh))
            && (|sent| >= 2 ==> sent[1] == Api(RefreshWith(tokens.refresh.value), None))
            && (|sent| == 3 <==> |sent| >= 2 && NewPair(replies(at + 1)).Some?)
            && (|sent| == 3 ==> sent[2] == Api(endpoint, NewPair(replies(at + 1)).value.access))
  {
    var stage := Start(tokens, endpoint, authed);
    if !stage.Done? {
      var (t1, s1) := OnReply(tokens, stage, replies(at));
      var c1 := DriveStep(tokens, stage, replies, at);
      if !s1.Done? {
        var (t2, s2) := OnReply(t1, s1, replies(at + 1));
        var c2 := DriveStep(t1, s1, replies, at + 1);
        if !s2.Done? {
          var _ := DriveStep(t2, s2, replies, at + 2);
        }
      }
    }
  }

  /** A call leaves the pair as it was, or replaced by the refresh reply's pair, or emptied; it empties the
      pair exactly when it reports the session as expired after it sent something. */
  lemma TokensAfterACall(tokens: Tokens, endpoint: Endpoint, authed: bool, replies: nat -> Reply, at: nat)
    ensures var call := RunCall(tokens, endpoint, authed, replies, at);
            && (call.tokens == NO_TOKENS && tokens != NO_TOKENS
                <==> tokens != NO_TOKENS && call.outcome.AuthExpired? && call.sent != [])
            && (call.tokens != NO_TOKENS ==>
                  call.tokens == if |call.sent| == 3 && NewPair(replies(at + 1)).Some? then NewPair(replies(at + 1)).value
                                 else tokens)
            && (!authed ==> call.tokens == tokens && !call.outcome.AuthExpired?)
  {
    RequestsOfACall(tokens, endpoint, authed, replies, at);
    var stage := Start(tokens, endpoint, authed);
    if !stage.Done? {
      var (t1, s1) := OnReply(tokens, stage, replies(at));
      var _ := DriveStep(tokens, stage, replies, at);
      if !s1.Done? {
        var (t2, s2) := OnReply(t1, s1, replies(at + 1));
        var _ := DriveStep(t1, s1, replies, at + 1);
        if !s2.Done? {
          var _ := DriveStep(t2, s2, replies, at + 2);
        }
      }
    }
  }

  // -------------------------------------------------------------------------
  // What a call ends with
  // -------------------------------------------------------------------------

  predicate Is2xx(reply: Reply) {
    reply.Http? && 200 <= reply.status < 300
  }

  /** A 2xx reply whose body has to be decoded and cannot be. */
  predicate BadJson(reply: Reply) {
    Is2xx(reply) && reply.status != 204 && reply.body.NotJson?
  }

  /** A reply, and the outcome of a call that ends with it: no reply is a connection error, 2xx is success, 429 is the
      rate limit, any other 4xx is the client's fault and everything else the server's. A success has no body after 204
      and after an empty answer, the fields of a JSON object, and the one field "data" for any other JSON value. */
  ghost predicate Reports(outcome: Outcome, reply: Reply) {
    && (outcome.ConnectionError? <==> reply.Failed?)
    && (outcome.Success? <==> Is2xx(reply) && !BadJson(reply))
    && (outcome.Crashed? <==> BadJson(reply))
    && (outcome.RateLimited? <==> reply.Http? && reply.status == 429)
    && (outcome.ClientError? <==> reply.Http? && 400 <= reply.status < 500 && reply.status != 429)
    && (outcome.ServerError? <==> reply.Http? && !Is2xx(reply) && !(400 <= reply.status < 500))
    && (outcome.ClientError? || outcome.ServerError? ==> outcome.status == reply.status)
    && (outcome.Success? ==>
          && (outcome.fields.None? <==> reply.status == 204 || reply.body.NoBody?)
          && (outcome.fields.Some? && reply.body.JsonObject? ==> outcome.fields.value == reply.body.fields)
          && (outcome.fields.Some? && reply.body.JsonOther? ==> outcome.fields.value.Keys == {"data"}))
  }

  /** There is one such outcome, up to how the field "data" is rendered. */
  lemma ReportsOnce(a: Outcome, b: Outcome, reply: Reply)
    requires Reports(a, reply) && Reports(b, reply)
    ensures a == b || (Is2xx(reply) && reply.body.JsonOther?)
  {
  }

  /** A reply to a refresh carries a pair exactly when it is a JSON object with both keys, under a 2xx status that has a
      body. */
  lemma PairOfAReply(reply: Reply)
    ensures NewPair(reply).Some? <==>
            && Is2xx(reply) && reply.status != 204 && reply.body.JsonObject?
            && "access" in reply.body.fields && "refresh" in reply.body.fields
    ensures NewPair(reply).Some? ==>
              && NewPair(reply).value.access == Some(reply.body.fields["access"])
              && NewPair(reply).value.refresh == Some(reply.body.fields["refresh"])
  {
  }

  /** The outcome of a call that sent `sent` requests, the first of which was answered by reply number `at`. */
  ghost predicate EndsWith(outcome: Outcome, authed: bool, sent: nat, replies: nat -> Reply, at: nat) {
    if sent == 0 then outcome == AuthExpired
    else if sent == 2 then outcome == if BadJson(replies(at + 1)) then Crashed else AuthExpired
    else
      var last := if sent == 1 then replies(at) else replies(at + 2);
      if authed && last.Http? && last.status == 401 then outcome == AuthExpired else Reports(outcome, last)
  }

  /** Every call reports its last reply: the first, or after a refresh the reply to the retry. It ends as expired when
      nothing could be sent, when a 401 cannot be answered by a refresh, when the refresh fails, and when the retry is
      a 401 again; only a refresh that cannot be decoded escapes as a crash. */
  lemma OutcomeOfACall(tokens: Tokens, endpoint: Endpoint, authed: bool, replies: nat -> Reply, at: nat)
    ensures var call := RunCall(tokens, endpoint, authed, replies, at);
            EndsWith(call.outcome, authed, |call.sent|, replies, at)
  {
    var stage := Start(tokens, endpoint, authed);
    if !stage.Done? {
      var (t1, s1) := OnReply(tokens, stage, replies(at));
      var _ := DriveStep(tokens, stage, replies, at);
      if !s1.Done? {
        var (t2, s2) := OnReply(t1, s1, replies(at + 1));
        var _ := DriveStep(t1, s1, replies, at + 1);
        if !s2.Done? {
          var _ := DriveStep(t2, s2, replies, at + 2);
        }
      }
    }
  }
}
