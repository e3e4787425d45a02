/** The token keys of one Streamlit session, and the actions of the page that read and write them. */
module AppSession {
  import opened Common
  import opened ApiProtocol
  import opened Client

  /** The session-state keys access_token, refresh_token and current_user. */
  datatype Stored = Stored(access: Option<string>, refresh: Option<string>, user: Option<string>)

  const SIGNED_OUT := Stored(None, None, None)

  function StoredPair(stored: Stored): Tokens {
    Tokens(stored.access, stored.refresh)
  }

  /** `_persist_tokens`: a token the client has lost is not mirrored. */
  function Persisted(stored: Stored, tokens: Tokens): Stored {
    stored.(access := if tokens.access.Some? then tokens.access else stored.access,
            refresh := if tokens.refresh.Some? then tokens.refresh else stored.refresh)
  }

  /** The three writes after a login or a registration; a missing key stops them with a KeyError. */
  function AfterSignIn(stored: Stored, outcome: Outcome): Stored {
    match outcome
    case Success(Some(fields)) =>
      if "access" !in fields then stored
      else
        var s1 := stored.(access := Some(fields["access"]));
        if "refresh" !in fields then s1
        else
          var s2 := s1.(refresh := Some(fields["refresh"]));
          if "user" !in fields then s2 else s2.(user := Some(fields["user"]))
    case _ => stored
  }

  /** `_handle_logout` clears the keys whatever ApiError the server call raises; only an undecodable 2xx body
      escapes its handler. */
  function AfterSignOut(stored: Stored, outcome: Outcome): Stored {
    if outcome.Crashed? then stored else SIGNED_OUT
  }

  /** An authenticated action: an expired session is forgotten, and then the client's pair is mirrored. */
  function AfterWork(stored: Stored, outcome: Outcome, tokens: Tokens): Stored {
    Persisted(if outcome.AuthExpired? then SIGNED_OUT else stored, tokens)
  }

  // -------------------------------------------------------------------------
  // What the actions leave behind
  // -------------------------------------------------------------------------

  /** A sign-in writes access, refresh and user in this order, each only if the reply has it and all before it. */
  lemma SignInWrites(stored: Stored, outcome: Outcome)
    ensures var r := AfterSignIn(stored, outcome);
            if outcome.Success? && outcome.fields.Some? then
              var fields := outcome.fields.value;
              && r.access == (if "access" in fields then Some(fields["access"]) else stored.access)
              && r.refresh == (if {"access", "refresh"} <= fields.Keys then Some(fields["refresh"]) else stored.refresh)
              && r.user == (if {"access", "refresh", "user"} <= fields.Keys then Some(fields["user"]) else stored.user)
            else r == stored
  {
  }

  /** Submitting the login or registration form stores what the server handed out: after a 2xx JSON object with the
      three keys, exactly its three values, and after a failure nothing. */
  lemma SignInStores(warm: bool, stored: Stored, tokens: Tokens, endpoint: Endpoint, replies: nat -> Reply,
                     took: nat -> real, at: nat)
    ensures var r := AfterSignIn(stored, RunRequest(warm, tokens, endpoint, false, replies, took, at).outcome);
            var pings := PingsDue(warm, replies, took, at);
            var reply := replies(at + pings);
            if !warm && forall k: nat :: at <= k < at + pings ==> !PingOk(replies(k)) then r == stored
            else
              && (!Is2xx(reply) || reply.status == 204 || !reply.body.JsonObject? ==> r == stored)
              && (Is2xx(reply) && reply.status != 204 && reply.body.JsonObject?
                  && {"access", "refresh", "user"} <= reply.body.fields.Keys ==>
                    var fields := reply.body.fields;
                    r == Stored(Some(fields["access"]), Some(fields["refresh"]), Some(fields["user"])))
  {
    RequestEnds(warm, tokens, endpoint, false, replies, took, at);
    RequestBudget(warm, tokens, endpoint, false, replies, took, at);
    var call := RunRequest(warm, tokens, endpoint, false, replies, took, at);
    SignInWrites(stored, call.outcome);
  }

  /** A logout forgets all three keys, whatever the server answers, unless the answer cannot be decoded: then it
      forgets none. */
  lemma SignOutForgets(warm: bool, stored: Stored, tokens: Tokens, endpoint: Endpoint, replies: nat -> Reply,
                       took: nat -> real, at: nat)
    ensures var r := AfterSignOut(stored, RunRequest(warm, tokens, endpoint, false, replies, took, at).outcome);
            var pings := PingsDue(warm, replies, took, at);
            if (warm || exists k: nat :: at <= k < at + pings && PingOk(replies(k))) && BadJson(replies(at + pings))
            then r == stored else r.access == r.refresh == r.user == None
  {
    RequestEnds(warm, tokens, endpoint, false, replies, took, at);
    RequestBudget(warm, tokens, endpoint, false, replies, took, at);
  }

  /** After an authenticated action of a signed-in session, its keys are the client's pair beside the same user: the pair
      it had, or the one a refresh replaced it by; once the session has expired there are none. */
  lemma WorkMirrors(warm: bool, stored: Stored, endpoint: Endpoint, replies: nat -> Reply, took: nat -> real, at: nat)
    requires Present(stored.access) && Present(stored.refresh) && stored.user.Some?
    ensures var call := RunRequest(warm, StoredPair(stored), endpoint, true, replies, took, at);
            var r := AfterWork(stored, call.outcome, call.tokens);
            if call.outcome.AuthExpired? then r.access == r.refresh == r.user == None
            else
              && r.user == stored.user && r.access == call.tokens.access && r.refresh == call.tokens.refresh
              && r.access.Some? && r.refresh.Some?
  {
    RequestEnds(warm, StoredPair(stored), endpoint, true, replies, took, at);
    var pings := PingsDue(warm, replies, took, at);
    RequestsOfACall(StoredPair(stored), endpoint, true, replies, at + pings);
    PairOfAReply(replies(at + pings + 1));
  }

  /** Mirroring writes each token the client has and leaves the other keys alone. */
  lemma PersistedKeys(stored: Stored, tokens: Tokens)
    ensures var r := Persisted(stored, tokens);
            && r.user == stored.user
            && r.access == (if tokens.access.None? then stored.access else tokens.access)
            && r.refresh == (if tokens.refresh.None? then stored.refresh else tokens.refresh)
  {
  }

  class AppSession {
    const client: ApiClient
    var stored: Stored

    constructor (client: ApiClient)
      ensures this.client == client && stored == SIGNED_OUT
    {
      this.client := client;
      stored := SIGNED_OUT;
    }

    /** `get_or_create_client`, at the top of every rerun. */
    method AttachTokens()
      modifies client
      ensures client.Pair() == StoredPair(stored) && client.warm == old(client.warm)
    {
      client.SetTokens(stored.access, stored.refresh);
    }

    method PersistTokens()
      modifies this
      ensures stored == Persisted(old(stored), client.Pair())
    {
      if client.access.Some? {
        stored := stored.(access := client.access);
      }
      if client.refresh.Some? {
        stored := stored.(refresh := client.refresh);
      }
    }

    method PopTokenKeys()
      modifies this
      ensures stored == SIGNED_OUT
    {
      stored := stored.(access := None);
      stored := stored.(refresh := None);
      stored := stored.(user := None);
    }

    method HandleLogout() returns (outcome: Outcome)
      modifies this, client, client.wire
      ensures stored == AfterSignOut(old(stored), outcome)
      ensures outcome == if !Present(old(client.refresh)) then Success(None)
                         else RunRequest(old(client.warm), old(client.Pair()), SignOut(old(client.refresh).value), false,
                                         client.wire.replies, client.wire.took, |old(client.wire.sent)|).outcome
    {
      outcome := client.Logout();
      if outcome.Crashed? {
        return;
      }
      PopTokenKeys();
    }

    /** `_login_form` and `_register_form` once submitted. */
    method SubmitSignIn(endpoint: Endpoint) returns (outcome: Outcome)
      modifies this, client, client.wire
      ensures stored == AfterSignIn(old(stored), outcome)
      ensures outcome == RunRequest(old(client.warm), old(client.Pair()), endpoint, false,
                                    client.wire.replies, client.wire.took, |old(client.wire.sent)|).outcome
    {
      outcome := client.Request(endpoint, false);
      if !outcome.Success? || outcome.fields.None? {
        return;
      }
      var result := outcome.fields.value;
      if "access" !in result {
        return;
      }
      stored := stored.(access := Some(result["access"]));
      if "refresh" !in result {
        return;
      }
      stored := stored.(refresh := Some(result["refresh"]));
      if "user" !in result {
        return;
      }
      stored := stored.(user := Some(result["user"]));
    }

    /** Any authenticated action of the page, with its `except ApiError` and its `finally`. */
    method Work(endpoint: Endpoint) returns (outcome: Outcome)
      modifies this, client, client.wire
      ensures var call := RunRequest(old(client.warm), old(client.Pair()), endpoint, true,
                                     client.wire.replies, client.wire.took, |old(client.wire.sent)|);
              && outcome == call.outcome
              && client.Pair() == call.tokens
              && stored == AfterWork(old(stored), call.outcome, call.tokens)
    {
      outcome := client.Request(endpoint, true);
      if outcome.AuthExpired? {
        PopTokenKeys();
      }
      PersistTokens();
    }
  }
}
