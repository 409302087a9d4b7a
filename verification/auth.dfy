/**
 * Token handling of the PetTracer API client
 * (custom_components/pettracer/api.py: _is_token_valid, authenticate,
 * _ensure_authenticated). Times are whole seconds on one clock; the login
 * endpoint's reply is an input.
 */
module Auth {
  import opened Wrappers

  /** The client's token fields; both start out missing. */
  datatype AuthState = AuthState(token: Option<string>, expiry: Option<int>)

  /** The state a new client starts in (api.py `__init__`). */
  const Initial: AuthState := AuthState(None, None)

  /** A token is treated as expired this many seconds (five minutes) before its expiry. */
  const TokenBufferSeconds: int := 5 * 60

  /** Whether the stored token may be used at time `now`. */
  function IsTokenValid(s: AuthState, now: int): (valid: bool)
    ensures valid <==> Truthy(s.token) && s.expiry.Some? && now + TokenBufferSeconds < s.expiry.value
  {
    if !Truthy(s.token) || s.expiry.None? then false
    else now < s.expiry.value - TokenBufferSeconds
  }

  /** A token valid now was valid at every earlier moment. */
  lemma ValidEarlier(s: AuthState, now: int, earlier: int)
    requires earlier <= now
    requires IsTokenValid(s, now)
    ensures IsTokenValid(s, earlier)
  {
  }

  /** A fresh client has no usable token, so its first ensure always logs in. */
  lemma InitialNeverValid(now: int, reply: LoginReply)
    ensures !IsTokenValid(Initial, now)
    ensures EnsureAuthenticated(Initial, now, reply).loggedIn
  {
  }

  /** The login reply's `expires` field. */
  datatype Expires =
    | ExpiresMissing          // absent, null or the empty string: the expiry is left alone
    | ExpiresUnparsable       // a value datetime.fromisoformat rejects: it raises ValueError
    | ExpiresAt(at: int)      // a parsed ISO-8601 timestamp

  /** What the login request came back with. */
  datatype LoginReply =
    | ConnectionFailure       // aiohttp raised a ClientError
    | Reply(status: int, accessToken: Option<string>, expires: Expires)

  /** The exceptions `authenticate` can raise. */
  datatype LoginError =
    | InvalidCredentials      // PetTracerAuthError
    | LoginFailed(status: int)  // PetTracerApiError for another status
    | ConnectionError         // PetTracerApiError wrapping the ClientError
    | BadExpiry               // ValueError from the timestamp parser, not caught

  /** PetTracerAuthError is a subclass of PetTracerApiError, so an `except PetTracerApiError` catches it too. */
  predicate IsApiError(e: LoginError) {
    e.InvalidCredentials? || e.LoginFailed? || e.ConnectionError?
  }

  /** The client state after a login attempt and whether it raised. */
  datatype Login = Login(state: AuthState, outcome: Result<(), LoginError>)

  /**
   * One login. The token is overwritten on a 200 before the expiry is parsed,
   * so a bad expiry raises with the new token and the old expiry in place.
   */
  function Authenticate(s: AuthState, reply: LoginReply): (r: Login)
    ensures r.outcome.Ok? <==> reply.Reply? && reply.status == 200 && !reply.expires.ExpiresUnparsable?
    ensures reply.Reply? && reply.status == 401 ==> r.outcome == Err(InvalidCredentials)
    ensures reply.Reply? && reply.status != 200 && reply.status != 401 ==> r.outcome == Err(LoginFailed(reply.status))
    ensures reply.ConnectionFailure? ==> r.outcome == Err(ConnectionError)
    ensures reply.Reply? && reply.status == 200 && reply.expires.ExpiresUnparsable? ==> r.outcome == Err(BadExpiry)
    ensures r.outcome.Err? && r.outcome.error != BadExpiry ==> IsApiError(r.outcome.error) && r.state == s
    ensures reply.Reply? && reply.status == 200 ==>
              && r.state.token == reply.accessToken
              && r.state.expiry == (if reply.expires.ExpiresAt? then Some(reply.expires.at) else s.expiry)
  {
    match reply
    case ConnectionFailure => Login(s, Err(ConnectionError))
    case Reply(status, accessToken, expires) =>
      if status == 401 then Login(s, Err(InvalidCredentials))
      else if status != 200 then Login(s, Err(LoginFailed(status)))
      else
        var withToken := s.(token := accessToken);
        match expires
        case ExpiresMissing => Login(withToken, Ok(()))
        case ExpiresUnparsable => Login(withToken, Err(BadExpiry))
        case ExpiresAt(at) => Login(withToken.(expiry := Some(at)), Ok(()))
  }

  /** Every error of a login attempt other than a malformed expiry is an API error. */
  lemma AuthErrorIsApiError(s: AuthState, reply: LoginReply)
    requires Authenticate(s, reply).outcome.Err?
    requires !(reply.Reply? && reply.status == 200)
    ensures IsApiError(Authenticate(s, reply).outcome.error)
  {
  }

  /**
   * A malformed expiry on a 200 reply raises the parser's ValueError, which
   * is not an API error, after the new token has been stored.
   */
  lemma BadExpiryEscapes(s: AuthState, token: Option<string>)
    ensures var r := Authenticate(s, Reply(200, token, ExpiresUnparsable));
            && r.outcome == Err(BadExpiry) && !IsApiError(r.outcome.error)
            && r.state == s.(token := token)
  {
  }

  /** A successful login with a non-empty token and a far enough expiry makes the token usable. */
  lemma LoginMakesValid(s: AuthState, token: string, at: int, now: int)
    requires token != ""
    requires now + TokenBufferSeconds < at
    ensures IsTokenValid(Authenticate(s, Reply(200, Some(token), ExpiresAt(at))).state, now)
  {
  }

  /** A 200 reply without `access_token` clears the token, so it is invalid at every time. */
  lemma MissingTokenNeverValid(s: AuthState, expires: Expires, now: int)
    ensures !IsTokenValid(Authenticate(s, Reply(200, None, expires)).state, now)
  {
  }

  /** The result of `_ensure_authenticated`: the state, whether a login was sent, and its outcome. */
  datatype Ensured = Ensured(login: Login, loggedIn: bool)

  /** Log in only when the current token is not valid at `now`; `reply` is what that login would return. */
  function EnsureAuthenticated(s: AuthState, now: int, reply: LoginReply): (r: Ensured)
    ensures r.loggedIn <==> !IsTokenValid(s, now)
    ensures !r.loggedIn ==> r.login == Login(s, Ok(()))
    ensures r.loggedIn ==> r.login == Authenticate(s, reply)
  {
    if IsTokenValid(s, now) then Ensured(Login(s, Ok(())), false)
    else Ensured(Authenticate(s, reply), true)
  }

  /**
   * Two back-to-back ensures at the same moment send at most one login when
   * that login returns a non-empty token whose expiry is far enough away.
   */
  lemma EnsureTwiceLogsInOnce(s: AuthState, now: int, token: string, at: int, reply: LoginReply)
    requires token != "" && now + TokenBufferSeconds < at
    ensures var first := EnsureAuthenticated(s, now, Reply(200, Some(token), ExpiresAt(at)));
            !EnsureAuthenticated(first.login.state, now, reply).loggedIn
  {
    var first := EnsureAuthenticated(s, now, Reply(200, Some(token), ExpiresAt(at)));
    if first.loggedIn {
      LoginMakesValid(s, token, at, now);
    }
  }
}
