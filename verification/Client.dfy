/** The HTTP client: its stored token pair, its warm flag, and the calls it makes over a wire. */
module Client {
  import opened Common
  import opened ApiProtocol

  /** The network as one client sees it: the k-th request ever sent is answered by `replies(k)` after
      `took(k)` seconds. Only requests and sleeping take time. */
  class Wire {
    const replies: nat -> Reply
    const took: nat -> real
    var sent: seq<Sent>
    var now: real
    var slept: real

    constructor (replies: nat -> Reply, took: nat -> real)
      ensures this.replies == replies && this.took == took && sent == [] && slept == 0.0
    {
      this.replies, this.took := replies, took;
      sent, now, slept := [], 0.0, 0.0;
    }

    method Send(m: Sent) returns (reply: Reply)
      modifies this
      ensures sent == old(sent) + [m] && reply == replies(|old(sent)|)
      ensures now == old(now) + took(|old(sent)|) && slept == old(slept)
    {
      reply := replies(|sent|);
      now := now + took(|sent|);
      sent := sent + [m];
    }

    method Sleep(seconds: real)
      modifies this
      ensures now == old(now) + seconds && slept == old(slept) + seconds && sent == old(sent)
    {
      now, slept := now + seconds, slept + seconds;
    }
  }

  // -------------------------------------------------------------------------
  // Warm-up
  // -------------------------------------------------------------------------

  const ATTEMPTS := 6
  const WARMUP_TIMEOUT := 35.0

  function Min(a: real, b: real): real {
    if a < b then a else b
  }

  function Max(a: real, b: real): real {
    if a < b then b else a
  }

  predicate PingOk(reply: Reply) {
    reply.Http? && reply.status == 200
  }

  /** A warm-up in progress: pings sent, seconds slept, seconds since it began, and whether and how it ended. */
  datatype Warmup = Warmup(pings: nat, slept: real, elapsed: real, over: bool, warm: bool)

  const COLD := Warmup(0, 0.0, 0.0, false, false)

  /** The back-off schedule: the pause after attempt 0, 1, ... There is none after the last one. */
  function Delay(attempt: nat): real {
    if attempt == 0 then 1.0 else if attempt == 1 then 2.0 else if attempt == 2 then 4.0
    else if attempt == 3 then 8.0 else 16.0
  }

  /** One attempt: a ping, and after a failed one the pause before the next. */
  function Attempt(w: Warmup, timeout: real, reply: Reply, took: real): Warmup {
    var pinged := w.elapsed + took;
    if PingOk(reply) then Warmup(w.pings + 1, w.slept, pinged, true, true)
    else if w.pings + 1 == ATTEMPTS || timeout - pinged <= 0.0 then Warmup(w.pings + 1, w.slept, pinged, true, false)
    else
      var pause := Min(Delay(w.pings), timeout - pinged);
      Warmup(w.pings + 1, w.slept + pause, pinged + pause, false, false)
  }

  /** The rest of a warm-up whose next ping is the wire's request number `at`. */
  function Finish(w: Warmup, timeout: real, replies: nat -> Reply, took: nat -> real, at: nat): Warmup
    decreases if w.over then 0 else ATTEMPTS - w.pings + 1
  {
    if w.over || w.pings >= ATTEMPTS then w
    else Finish(Attempt(w, timeout, replies(at), took(at)), timeout, replies, took, at + 1)
  }

  /** The HTTP timeout of a ping. */
  predicate PromptAt(took: nat -> real, k: nat) {
    0.0 <= took(k) <= 5.0
  }

  ghost predicate Prompt(took: nat -> real) {
    forall k: nat {:trigger PromptAt(took, k)} :: PromptAt(took, k)
  }

  /** The sum of the first `n` delays. */
  function Delays(n: nat): real {
    if n == 0 then 0.0 else if n == 1 then 1.0 else if n == 2 then 3.0 else if n == 3 then 7.0
    else if n == 4 then 15.0 else 31.0
  }

  predicate InTime(w: Warmup, timeout: real) {
    && w.pings <= ATTEMPTS
    && 0.0 <= w.slept <= Delays(w.pings)
    && w.slept <= Max(0.0, timeout)
    && w.slept <= w.elapsed <= w.slept + 5.0 * w.pings as real
    && w.elapsed <= Max(0.0, timeout) + (if w.over then 5.0 else 0.0)
    && (w.warm ==> w.over)
    && (w.over ==> w.warm || w.pings == ATTEMPTS || timeout <= w.elapsed)
  }

  lemma AttemptInTime(w: Warmup, timeout: real, reply: Reply, took: real)
    requires InTime(w, timeout) && !w.over && w.pings < ATTEMPTS && 0.0 <= took <= 5.0
    ensures InTime(Attempt(w, timeout, reply, took), timeout)
  {
    if w.pings + 1 < ATTEMPTS {
      assert Delays(w.pings + 1) == Delays(w.pings) + Delay(w.pings);
    }
  }

  lemma {:induction false} FinishInTime(w: Warmup, timeout: real, replies: nat -> Reply, took: nat -> real, at: nat)
    requires InTime(w, timeout) && Prompt(took) && (w.over || w.pings < ATTEMPTS)
    ensures InTime(Finish(w, timeout, replies, took, at), timeout)
    ensures Finish(w, timeout, replies, took, at).over
    decreases if w.over then 0 else ATTEMPTS - w.pings + 1
  {
    if !w.over {
      assert PromptAt(took, at);
      AttemptInTime(w, timeout, replies(at), took(at));
      FinishInTime(Attempt(w, timeout, replies(at), took(at)), timeout, replies, took, at + 1);
    }
  }

  /** The pings a warm-up has still to make all fail, except that the last one succeeds if it ends warm. */
  lemma {:induction false} FinishPings(w: Warmup, timeout: real, replies: nat -> Reply, took: nat -> real, at: nat)
    requires !w.over && !w.warm && w.pings < ATTEMPTS
    ensures var end := Finish(w, timeout, replies, took, at);
            && w.pings < end.pings <= ATTEMPTS
            && forall k: nat :: at <= k < at + end.pings - w.pings ==>
                 (replies(k).Http? && replies(k).status == 200 <==> end.warm && k == at + end.pings - w.pings - 1)
    decreases ATTEMPTS - w.pings
  {
    var next := Attempt(w, timeout, replies(at), took(at));
    if !next.over {
      FinishPings(next, timeout, replies, took, at + 1);
    }
  }

  /** When every ping is answered or dropped within five seconds, a warm-up makes at most six pings, sleeps at
      most 31 seconds and at most its timeout, and is over 61 seconds or timeout + 5 seconds after it began,
      whichever is sooner. It succeeds exactly when some ping is answered 200, and short of six pings it fails
      only because its time is up. */
  lemma WarmupBounds(timeout: real, replies: nat -> Reply, took: nat -> real, at: nat)
    requires Prompt(took)
    ensures var w := Finish(COLD, timeout, replies, took, at);
            && 1 <= w.pings <= 6
            && 0.0 <= w.slept <= Min(31.0, Max(0.0, timeout))
            && w.elapsed <= Min(61.0, Max(0.0, timeout) + 5.0)
            && (w.warm <==> exists k: nat :: at <= k < at + w.pings && replies(k).Http? && replies(k).status == 200)
            && (!w.warm && w.pings < 6 ==> timeout <= w.elapsed)
  {
    FinishInTime(COLD, timeout, replies, took, at);
    FinishPings(COLD, timeout, replies, took, at);
    var w := Finish(COLD, timeout, replies, took, at);
    assert Delays(w.pings) <= 31.0;
    if w.warm {
      assert PingOk(replies(at + w.pings - 1));
    }
  }

  // -------------------------------------------------------------------------
  // The back-off
  // -------------------------------------------------------------------------

  function PowerOfTwo(n: nat): real {
    if n == 0 then 1.0 else 2.0 * PowerOfTwo(n - 1)
  }

  /** How long the first `n` requests from number `start` on took. */
  function TimeOf(took: nat -> real, start: nat, n: nat): real {
    if n == 0 then 0.0 else TimeOf(took, start, n - 1) + took(start + n - 1)
  }

  predicate ForwardAt(took: nat -> real, k: nat) {
    0.0 <= took(k)
  }

  /** Time does not run backwards. */
  ghost predicate Forward(took: nat -> real) {
    forall k: nat {:trigger ForwardAt(took, k)} :: ForwardAt(took, k)
  }

  /** Sleep after `n` pauses: 1 + 2 + 4 + ... seconds, cut off where they would exceed the timeout. */
  predicate Paused(slept: real, n: nat, timeout: real, spent: real) {
    slept == if n == 0 then 0.0
             else if PowerOfTwo(n) - 1.0 < timeout - spent then PowerOfTwo(n) - 1.0 else timeout - spent
  }

  /** A warm-up in progress has made one pause after each of its pings. */
  predicate Paced(w: Warmup, timeout: real, took: nat -> real, start: nat) {
    var spent := TimeOf(took, start, w.pings);
    !w.over && Paused(w.slept, w.pings, timeout, spent) && w.elapsed == w.slept + spent
  }

  /** One that is over has made a pause between its pings. */
  predicate PacedToTheEnd(w: Warmup, timeout: real, took: nat -> real, start: nat) {
    && w.over && w.pings >= 1
    && Paused(w.slept, w.pings - 1, timeout, TimeOf(took, start, w.pings - 1))
    && w.elapsed == w.slept + TimeOf(took, start, w.pings)
  }

  lemma FirstPowers()
    ensures PowerOfTwo(0) == 1.0 && PowerOfTwo(1) == 2.0 && PowerOfTwo(2) == 4.0 && PowerOfTwo(3) == 8.0
    ensures PowerOfTwo(4) == 16.0
  {
    assert PowerOfTwo(2) == 2.0 * PowerOfTwo(1);
    assert PowerOfTwo(3) == 2.0 * PowerOfTwo(2);
    assert PowerOfTwo(4) == 2.0 * PowerOfTwo(3);
  }

  lemma AttemptPaced(w: Warmup, timeout: real, reply: Reply, took: nat -> real, start: nat)
    requires Paced(w, timeout, took, start) && w.pings < ATTEMPTS && 0.0 <= took(start + w.pings)
    ensures var next := Attempt(w, timeout, reply, took(start + w.pings));
            if next.over then PacedToTheEnd(next, timeout, took, start) else Paced(next, timeout, took, start)
  {
    var next := Attempt(w, timeout, reply, took(start + w.pings));
    assert TimeOf(took, start, next.pings) == TimeOf(took, start, w.pings) + took(start + w.pings);
    if !next.over {
      FirstPowers();
      assert Delay(w.pings) == PowerOfTwo(w.pings);
      assert PowerOfTwo(next.pings) == 2.0 * PowerOfTwo(w.pings);
    }
  }

  lemma {:induction false} FinishPaced(w: Warmup, timeout: real, replies: nat -> Reply, took: nat -> real, start: nat)
    requires Paced(w, timeout, took, start) && w.pings < ATTEMPTS && Forward(took)
    ensures PacedToTheEnd(Finish(w, timeout, replies, took, start + w.pings), timeout, took, start)
    decreases ATTEMPTS - w.pings
  {
    assert ForwardAt(took, start + w.pings);
    AttemptPaced(w, timeout, replies(start + w.pings), took, start);
    var next := Attempt(w, timeout, replies(start + w.pings), took(start + w.pings));
    if !next.over {
      FinishPaced(next, timeout, replies, took, start);
    }
  }

  /** A warm-up sleeps between its pings and at no other time: 1, 2, 4, 8 and 16 seconds, the last pause cut off at the
      timeout. So one that ends before the timeout has slept 2^(pings - 1) - 1 seconds, no more and no less. */
  lemma BackOff(timeout: real, replies: nat -> Reply, took: nat -> real, at: nat)
    requires Forward(took)
    ensures var w := Finish(COLD, timeout, replies, took, at);
            && PacedToTheEnd(w, timeout, took, at)
            && (w.elapsed < timeout ==> w.slept == PowerOfTwo(w.pings - 1) - 1.0)
  {
    FinishPaced(COLD, timeout, replies, took, at);
    var w := Finish(COLD, timeout, replies, took, at);
    assert ForwardAt(took, at + w.pings - 1);
  }

  // -------------------------------------------------------------------------
  // The client
  // -------------------------------------------------------------------------

  function Pings(n: nat): (pings: seq<Sent>)
    ensures |pings| == n && forall i :: 0 <= i < n ==> pings[i] == Health
  {
    seq(n, _ => Health)
  }

  /** Whether the lazy warm-up of a cold client that has sent `at` requests succeeds. */
  predicate WarmsUp(replies: nat -> Reply, took: nat -> real, at: nat) {
    Finish(COLD, WARMUP_TIMEOUT, replies, took, at).warm
  }

  /** The pings a call is preceded by: none once the client is warm. */
  function PingsDue(warm: bool, replies: nat -> Reply, took: nat -> real, at: nat): nat {
    if warm then 0 else Finish(COLD, WARMUP_TIMEOUT, replies, took, at).pings
  }

  /** A public method from end to end: the warm-up if it is still due, then, on a warm client, one call. */
  function RunRequest(warm: bool, tokens: Tokens, endpoint: Endpoint, authed: bool, replies: nat -> Reply,
                      took: nat -> real, at: nat): Call
  {
    var pings := PingsDue(warm, replies, took, at);
    if !warm && !WarmsUp(replies, took, at) then Call(tokens, ConnectionError, Pings(pings))
    else
      var call := RunCall(tokens, endpoint, authed, replies, at + pings);
      call.(sent := Pings(pings) + call.sent)
  }

  /** Whatever the network answers, a public method sends at most six pings, none once the client is warm, and
      then at most three requests, one if it is not authenticated. */
  lemma RequestBudget(warm: bool, tokens: Tokens, endpoint: Endpoint, authed: bool, replies: nat -> Reply,
                      took: nat -> real, at: nat)
    ensures var sent := RunRequest(warm, tokens, endpoint, authed, replies, took, at).sent;
            var pings := PingsDue(warm, replies, took, at);
            && pings <= (if warm then 0 else 6)
            && pings <= |sent| <= pings + (if authed then 3 else 1)
            && (forall i :: 0 <= i < |sent| ==> (sent[i] == Health <==> i < pings))
  {
    if !warm {
      FinishPings(COLD, WARMUP_TIMEOUT, replies, took, at);
    }
    var pings := PingsDue(warm, replies, took, at);
    RequestsOfACall(tokens, endpoint, authed, replies, at + pings);
  }

  /** How a public method ends. On a cold client whose pings all fail it is a connection error, and nothing but those
      pings was sent. Otherwise it ends as a call does whose first request comes after the pings: with its last reply's
      outcome, and with the tokens it had, those of its refresh, or none once the session has expired. */
  lemma RequestEnds(warm: bool, tokens: Tokens, endpoint: Endpoint, authed: bool, replies: nat -> Reply,
                    took: nat -> real, at: nat)
    ensures var call := RunRequest(warm, tokens, endpoint, authed, replies, took, at);
            var pings := PingsDue(warm, replies, took, at);
            if !warm && forall k: nat :: at <= k < at + pings ==> !PingOk(replies(k)) then
              call.outcome == ConnectionError && call.tokens == tokens && |call.sent| == pings
            else
              && pings <= |call.sent|
              && EndsWith(call.outcome, authed, |call.sent| - pings, replies, at + pings)
              && call.tokens == if authed && call.outcome.AuthExpired? && |call.sent| > pings then NO_TOKENS
                                else if |call.sent| == pings + 3 && NewPair(replies(at + pings + 1)).Some?
                                then NewPair(replies(at + pings + 1)).value else tokens
  {
    var pings := PingsDue(warm, replies, took, at);
    if !warm {
      FinishPings(COLD, WARMUP_TIMEOUT, replies, took, at);
      if WarmsUp(replies, took, at) {
        assert PingOk(replies(at + pings - 1));
      }
    }
    RequestsOfACall(tokens, endpoint, authed, replies, at + pings);
    TokensAfterACall(tokens, endpoint, authed, replies, at + pings);
    OutcomeOfACall(tokens, endpoint, authed, replies, at + pings);
  }

  /** Warming up lazily takes at most forty seconds before the first request of a call. */
  lemma LazyWarmup(replies: nat -> Reply, took: nat -> real, at: nat)
    requires Prompt(took)
    ensures Finish(COLD, WARMUP_TIMEOUT, replies, took, at).elapsed <= 40.0
    ensures !WarmsUp(replies, took, at) && PingsDue(false, replies, took, at) < 6 ==>
              Finish(COLD, WARMUP_TIMEOUT, replies, took, at).elapsed >= 35.0
  {
    WarmupBounds(WARMUP_TIMEOUT, replies, took, at);
  }

  class ApiClient {
    const wire: Wire
    var access: Option<string>
    var refresh: Option<string>
    var warm: bool

    constructor (wire: Wire)
      ensures this.wire == wire && Pair() == NO_TOKENS && !warm
    {
      this.wire := wire;
      access, refresh, warm := None, None, false;
    }

    function Pair(): Tokens
      reads this
    {
      Tokens(access, refresh)
    }

    method SetTokens(access: Option<string>, refresh: Option<string>)
      modifies this
      ensures Pair() == Tokens(access, refresh) && warm == old(warm)
    {
      this.access := access;
      this.refresh := refresh;
    }

    method ClearTokens()
      modifies this
      ensures Pair() == NO_TOKENS && warm == old(warm)
    {
      access := None;
      refresh := None;
    }

    /** Pings /health, backing off, until it answers 200; false stands for the ApiConnectionError raised when
        the attempts or the time run out. */
    method WarmUp(timeout: real) returns (ok: bool)
      modifies this, wire
      ensures var w := Finish(COLD, timeout, wire.replies, wire.took, |old(wire.sent)|);
              && ok == w.warm
              && warm == (old(warm) || w.warm)
              && wire.sent == old(wire.sent) + Pings(w.pings)
              && wire.slept == old(wire.slept) + w.slept
              && wire.now == old(wire.now) + w.elapsed
      ensures Pair() == old(Pair())
    {
      var start := wire.now;
      ghost var at := |wire.sent|;
      ghost var w := COLD;
      for attempt := 0 to ATTEMPTS
        invariant Pair() == old(Pair()) && warm == old(warm)
        invariant wire.sent == old(wire.sent) + Pings(attempt)
        invariant w.pings == attempt && !w.warm && (w.over ==> attempt == ATTEMPTS)
        invariant w.slept == wire.slept - old(wire.slept) && w.elapsed == wire.now - start
        invariant Finish(COLD, timeout, wire.replies, wire.took, at)
                  == Finish(w, timeout, wire.replies, wire.took, at + attempt)
      {
        w := Attempt(w, timeout, wire.replies(at + attempt), wire.took(at + attempt));
        var reply := wire.Send(Health);
        if reply.Http? && reply.status == 200 {
          warm := true;
          return true;
        }
        if attempt < ATTEMPTS - 1 {
          var remaining := timeout - (wire.now - start);
          if remaining <= 0.0 {
            return false;
          }
          wire.Sleep(Min(Delay(attempt), remaining));
        }
      }
      ok := false;
    }

    method EnsureWarm() returns (ok: bool)
      modifies this, wire
      ensures wire.sent == old(wire.sent) + Pings(PingsDue(old(warm), wire.replies, wire.took, |old(wire.sent)|))
      ensures ok <==> old(warm) || WarmsUp(wire.replies, wire.took, |old(wire.sent)|)
      ensures warm == ok
      ensures Pair() == old(Pair())
    {
      if warm {
        return true;
      }
      ok := WarmUp(WARMUP_TIMEOUT);
    }

    /** Presents the refresh token; on success both stored tokens are replaced. */
    method DoRefresh() returns (outcome: Outcome)
      modifies this, wire
      ensures warm == old(warm)
      ensures !old(Present(refresh)) ==> wire.sent == old(wire.sent) && Pair() == old(Pair()) && outcome.AuthExpired?
      ensures old(Present(refresh)) ==>
                var reply := wire.replies(|old(wire.sent)|);
                && wire.sent == old(wire.sent) + [Api(RefreshWith(old(refresh).value), None)]
                && Pair() == (if NewPair(reply).Some? then NewPair(reply).value else old(Pair()))
                && (outcome.Success? <==> NewPair(reply).Some?)
                && (outcome.Crashed? <==> Undecodable(reply))
    {
      if !Present(refresh) {
        return AuthExpired;
      }
      var reply := wire.Send(Api(RefreshWith(refresh.value), None));
      if reply.Failed? {
        return ConnectionError;
      }
      var body := HandleResponse(reply.status, reply.body);
      if !body.Success? {
        return body;
      }
      if body.fields.None? || "access" !in body.fields.value || "refresh" !in body.fields.value {
        return ClientError(200);
      }
      access := Some(body.fields.value["access"]);
      refresh := Some(body.fields.value["refresh"]);
      outcome := body;
    }

    /** One call of a warm client: the request, and after a 401 at most one refresh and one retry. */
    method Dispatch(endpoint: Endpoint, authed: bool) returns (outcome: Outcome)
      modifies this, wire
      ensures var call := RunCall(old(Pair()), endpoint, authed, wire.replies, |old(wire.sent)|);
              Pair() == call.tokens && outcome == call.outcome && wire.sent == old(wire.sent) + call.sent
      ensures warm == old(warm)
    {
      ghost var at := |wire.sent|;
      if authed && !Present(access) {
        return AuthExpired;
      }
      ghost var rest := DriveStep(Pair(), First(endpoint, authed), wire.replies, at);
      var reply := wire.Send(Api(endpoint, if authed then access else None));
      if reply.Failed? {
        return ConnectionError;
      }
      if authed && reply.status == 401 {
        if Present(refresh) {
          rest := DriveStep(Pair(), Refreshing(endpoint), wire.replies, at + 1);
        }
        var refreshed := DoRefresh();
        if IsApiError(refreshed) {
          ClearTokens();
          return AuthExpired;
        }
        if refreshed.Crashed? {
          return Crashed;
        }
        rest := DriveStep(Pair(), Retry(endpoint), wire.replies, at + 2);
        reply := wire.Send(Api(endpoint, access));
        if reply.Failed? {
          return ConnectionError;
        }
        if reply.status == 401 {
          ClearTokens();
          return AuthExpired;
        }
      }
      outcome := HandleResponse(reply.status, reply.body);
    }

    /** What every public method runs: the warm-up if it is still due, then the call. */
    method Request(endpoint: Endpoint, authed: bool) returns (outcome: Outcome)
      modifies this, wire
      ensures var call := RunRequest(old(warm), old(Pair()), endpoint, authed, wire.replies, wire.took,
                                     |old(wire.sent)|);
              Pair() == call.tokens && outcome == call.outcome && wire.sent == old(wire.sent) + call.sent
      ensures warm <==> old(warm) || WarmsUp(wire.replies, wire.took, |old(wire.sent)|)
    {
      var ready := EnsureWarm();
      if !ready {
        return ConnectionError;
      }
      outcome := Dispatch(endpoint, authed);
    }

    /** Best-effort revocation of the stored refresh token: the call of the machine, or nothing at all when no
        refresh token is stored. */
    method Logout() returns (outcome: Outcome)
      modifies this, wire
      ensures !old(Present(refresh)) ==>
                wire.sent == old(wire.sent) && outcome == Success(None) && Pair() == old(Pair()) && warm == old(warm)
      ensures old(Present(refresh)) ==>
                var call := RunRequest(old(warm), old(Pair()), SignOut(old(refresh).value), false, wire.replies,
                                       wire.took, |old(wire.sent)|);
                Pair() == call.tokens && outcome == call.outcome && wire.sent == old(wire.sent) + call.sent
    {
      if !Present(refresh) {
        return Success(None);
      }
      outcome := Request(SignOut(refresh.value), false);
    }
  }
}
