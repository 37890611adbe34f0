/** The app's handler for a 401 (TokenAuthenticator.kt), cut at its two network calls. The lock is
    held from Authenticate to the decision that ends it. */
module TokenAuthenticators {
  import opened Common
  import opened Sessions

  datatype ErrorCode =
    | AUTH_REQUIRED | TOKEN_EXPIRED | DEVICE_REVOKED | SESSION_REVOKED | OBJECT_NOT_FOUND | READ_FORBIDDEN
    | WRITE_FORBIDDEN | VALUE_INVALID | CONFIRMATION_REQUIRED | LOCAL_ONLY | RATE_LIMITED | COMMAND_TIMEOUT
    | REVISION_CONFLICT | SERVER_UNAVAILABLE | PAIRING_INVALID | PAIRING_EXPIRED | CHALLENGE_INVALID
    | SIGNATURE_INVALID | NOT_FOUND | VALIDATION_ERROR | REPLAY_DETECTED | UNKNOWN

  predicate IsDefiniteRejection(code: ErrorCode) {
    code in {AUTH_REQUIRED, TOKEN_EXPIRED, SESSION_REVOKED, DEVICE_REVOKED, CHALLENGE_INVALID, SIGNATURE_INVALID,
             PAIRING_INVALID, PAIRING_EXPIRED}
  }

  /** A refused request and the one it retried, if any. */
  datatype Response = Response(deviceToken: Option<string>, prior: Option<Response>)

  function Attempts(r: Response): nat {
    1 + if r.prior.Some? then Attempts(r.prior.value) else 0
  }

  datatype Tokens = Tokens(access: Option<string>, refresh: Option<Token>)

  const NO_TOKENS := Tokens(None, None)

  datatype Reply = Granted(access: string, refresh: Token) | Refused(code: ErrorCode)

  datatype Decision =
    | GiveUp
    | Retry(access: string)
    | CallRefresh(token: Token)
    | CallLogin
    | NotifyRevoked

  function OnUnauthorized(tokens: Tokens, deviceId: Option<string>, response: Response): Decision {
    if Attempts(response) >= 2 || deviceId.None? then GiveUp
    else if tokens.access.Some? && tokens.access != response.deviceToken then Retry(tokens.access.value)
    else if tokens.refresh.None? then GiveUp
    else CallRefresh(tokens.refresh.value)
  }

  function Saved(reply: Reply): Tokens
    requires reply.Granted?
  {
    Tokens(Some(reply.access), Some(reply.refresh))
  }

  function OnRefreshReply(tokens: Tokens, reply: Reply): (Tokens, Decision) {
    if reply.Granted? then (Saved(reply), Retry(reply.access))
    else if IsDefiniteRejection(reply.code) then (tokens, CallLogin)
    else (tokens, GiveUp)
  }

  function OnLoginReply(tokens: Tokens, reply: Reply): (Tokens, Decision) {
    if reply.Granted? then (Saved(reply), Retry(reply.access))
    else if IsDefiniteRejection(reply.code) then (NO_TOKENS, NotifyRevoked)
    else (tokens, GiveUp)
  }

  class TokenAuthenticator {
    var tokens: Tokens
    var deviceId: Option<string>

    method ResponseCount(response: Response) returns (count: nat)
      ensures count == Attempts(response)
    {
      count := 1;
      var prior := response.prior;
      while prior.Some?
        invariant count + (if prior.Some? then Attempts(prior.value) else 0) == Attempts(response)
        decreases prior
      {
        count := count + 1;
        prior := prior.value.prior;
      }
    }

    /** Reads the stored tokens under the lock; the stored access token differing from the refused one
        means another thread has refreshed already. */
    method Authenticate(response: Response) returns (decision: Decision)
      ensures decision == OnUnauthorized(tokens, deviceId, response)
    {
      var count := ResponseCount(response);
      if count >= 2 || deviceId.None? {
        return GiveUp;
      }
      var current := tokens.access;
      if current.Some? && current != response.deviceToken {
        return Retry(current.value);
      }
      if tokens.refresh.None? {
        return GiveUp;
      }
      return CallRefresh(tokens.refresh.value);
    }

    method TakeRefreshReply(reply: Reply) returns (decision: Decision)
      modifies this`tokens
      ensures (tokens, decision) == OnRefreshReply(old(tokens), reply)
    {
      if reply.Granted? {
        tokens := Tokens(Some(reply.access), Some(reply.refresh));
        return Retry(reply.access);
      }
      if !IsDefiniteRejection(reply.code) {
        return GiveUp;
      }
      return CallLogin;
    }

    /** The end of attemptReLogin: a failed challenge or a signing failure arrives as a refusal too. */
    method TakeLoginReply(reply: Reply) returns (decision: Decision)
      modifies this`tokens
      ensures (tokens, decision) == OnLoginReply(old(tokens), reply)
    {
      if reply.Granted? {
        tokens := Tokens(Some(reply.access), Some(reply.refresh));
        return Retry(reply.access);
      }
      if IsDefiniteRejection(reply.code) {
        tokens := NO_TOKENS;
        return NotifyRevoked;
      }
      return GiveUp;
    }
  }
}
