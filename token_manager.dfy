/**
 * The session record of the load tests and its bearer-token cache
 * (`config` and `TryToGetNewAccessToken` in PerformanceTests/utils.js).
 *
 * The token endpoint's reply and the clock are parameters. A JavaScript value that is
 * unset or falsy is the empty string here, and NaN is `None`.
 */
module TokenManager {
  import opened Wrappers

  const MillisPerSecond := 1000

  /** The values the password grant needs; "" stands for an unset environment variable. */
  datatype Credentials = Credentials(tokenUrl: string, clientId: string, username: string, password: string)
  {
    /** None of `tokenUrl`, `username`, `password` is falsy. */
    predicate Complete() {
      tokenUrl != "" && username != "" && password != ""
    }
  }

  /** The cached token; `expiry` is an epoch time in milliseconds, `None` standing for NaN. */
  datatype TokenState = TokenState(accessToken: string, expiry: Option<int>)
  {
    /** `config.accessToken && config.expiry > now`: a NaN expiry compares false. */
    predicate ValidAt(now: int) {
      accessToken != "" && expiry.Some? && expiry.value > now
    }
  }

  /**
   * What the token endpoint answered. `TokenJson` is a body that parses as JSON: a missing
   * `access_token` reads as "", a missing or non-numeric `expires_in` as `None`.
   * `TokenNotJson` is a body on which `res.json()` throws.
   */
  datatype TokenReply = TokenJson(accessToken: string, expiresIn: Option<int>) | TokenNotJson

  /** The form posted to the token endpoint: an OAuth 2.0 Resource Owner Password Credentials
      grant (section 4.3.2 of RFC 6749). */
  datatype TokenRequest = TokenRequest(url: string, grantType: string, clientId: string,
                                       scope: string, username: string, password: string)

  /** What one call of the refresh did. `Threw` is the exception of `res.json()`, which the
      caller sees; the session is not touched then. */
  datatype RefreshStep =
    | NoCredentials
    | CacheHit
    | Renewed(request: TokenRequest, token: TokenState)
    | Threw(request: TokenRequest)
  {
    predicate Requested() {
      Renewed? || Threw?
    }
  }

  function PasswordGrant(c: Credentials): TokenRequest {
    TokenRequest(c.tokenUrl, "password", c.clientId, "openid", c.username, c.password)
  }

  /** `expiryDate.setSeconds(expiryDate.getSeconds() + expires_in)` read back with `getTime()`. */
  function ExpiryAfter(now: int, expiresIn: Option<int>): Option<int> {
    match expiresIn
    case None => None
    case Some(seconds) => Some(now + MillisPerSecond * seconds)
  }

  /** The decision of `TryToGetNewAccessToken` at clock reading `now`. */
  function Refresh(c: Credentials, t: TokenState, now: int, reply: TokenReply): RefreshStep {
    if !c.Complete() then NoCredentials
    else if t.ValidAt(now) then CacheHit
    else
      match reply
      case TokenNotJson => Threw(PasswordGrant(c))
      case TokenJson(token, expiresIn) => Renewed(PasswordGrant(c), TokenState(token, ExpiryAfter(now, expiresIn)))
  }

  /** The token held after a refresh step. */
  function TokenAfter(t: TokenState, step: RefreshStep): TokenState {
    if step.Renewed? then step.token else t
  }

  /** The mutable `config` record shared by the import and export scenarios. */
  class Config {
    var accessToken: string
    var expiry: Option<int>
    var tokenUrl: string
    var clientId: string
    var username: string
    var password: string
    var dataspace: string
    var transferBaseUrl: string
    var nsiBaseUrl: string

    /** The record `initConfig` builds, before any token is fetched. Its `expiry: ''` is never
        compared, because the empty `accessToken` short-circuits the cache test. */
    constructor (tokenUrl: string, clientId: string, username: string, password: string,
                 dataspace: string, transferBaseUrl: string, nsiBaseUrl: string)
      ensures Token() == TokenState("", None)
      ensures Creds() == Credentials(tokenUrl, clientId, username, password)
      ensures this.dataspace == dataspace && this.transferBaseUrl == transferBaseUrl
      ensures this.nsiBaseUrl == nsiBaseUrl
    {
      this.accessToken := "";
      this.expiry := None;
      this.tokenUrl := tokenUrl;
      this.clientId := clientId;
      this.username := username;
      this.password := password;
      this.dataspace := dataspace;
      this.transferBaseUrl := transferBaseUrl;
      this.nsiBaseUrl := nsiBaseUrl;
    }

    function Creds(): Credentials
      reads this
    {
      Credentials(tokenUrl, clientId, username, password)
    }

    function Token(): TokenState
      reads this
    {
      TokenState(accessToken, expiry)
    }

    /**
     * Fetches a new token unless credentials are missing or the cached one is still valid.
     * `reply` is what the token endpoint would answer; it is only read when a request is made.
     */
    method TryToGetNewAccessToken(now: int, reply: TokenReply) returns (step: RefreshStep)
      modifies this`accessToken, this`expiry
      ensures step == Refresh(old(Creds()), old(Token()), now, reply)
      ensures Token() == TokenAfter(old(Token()), step)
      ensures Creds() == old(Creds())
      ensures dataspace == old(dataspace) && transferBaseUrl == old(transferBaseUrl)
      ensures nsiBaseUrl == old(nsiBaseUrl)
    {
      if tokenUrl == "" || username == "" || password == "" {
        return NoCredentials;
      }
      if accessToken != "" && expiry.Some? && expiry.value > now {
        return CacheHit;
      }
      var request := TokenRequest(tokenUrl, "password", clientId, "openid", username, password);
      match reply {
        case TokenNotJson =>
          step := Threw(request);
        case TokenJson(token, expiresIn) =>
          expiry := if expiresIn.Some? then Some(now + MillisPerSecond * expiresIn.value) else None;
          accessToken := token;
          step := Renewed(request, TokenState(accessToken, expiry));
      }
    }
  }

  /** Missing credentials: no request, session unchanged. */
  lemma NoRequestWithoutCredentials(c: Credentials, t: TokenState, now: int, reply: TokenReply)
    requires !c.Complete()
    ensures Refresh(c, t, now, reply) == NoCredentials
    ensures TokenAfter(t, Refresh(c, t, now, reply)) == t
  {
  }

  /** A cache hit happens exactly when credentials are present and the token is valid at `now`;
      then no request is made and the session is unchanged. */
  lemma CacheHitIffValid(c: Credentials, t: TokenState, now: int, reply: TokenReply)
    ensures Refresh(c, t, now, reply) == CacheHit <==> c.Complete() && t.ValidAt(now)
    ensures c.Complete() && t.ValidAt(now) ==> TokenAfter(t, Refresh(c, t, now, reply)) == t
  {
  }

  /** With credentials and no valid token, exactly one password grant is posted, and on a JSON
      reply the token and `now + 1000 * expires_in` are stored. */
  lemma StaleTokenIsRenewed(c: Credentials, t: TokenState, now: int, reply: TokenReply)
    requires c.Complete() && !t.ValidAt(now)
    ensures Refresh(c, t, now, reply).Requested()
    ensures Refresh(c, t, now, reply).request == PasswordGrant(c)
    ensures PasswordGrant(c).grantType == "password" && PasswordGrant(c).scope == "openid"
    ensures reply.TokenJson? && reply.expiresIn.Some? ==>
      TokenAfter(t, Refresh(c, t, now, reply))
        == TokenState(reply.accessToken, Some(now + MillisPerSecond * reply.expiresIn.value))
    ensures reply.TokenNotJson? ==> TokenAfter(t, Refresh(c, t, now, reply)) == t
  {
  }

  /** A renewed non-empty token with a positive lifetime serves every later call made before
      its expiry without another request, and is replaced once the expiry is reached. */
  lemma RenewedTokenServesUntilExpiry(c: Credentials, t: TokenState, now: int,
                                                          token: string, seconds: int,
                                                          later: int, reply: TokenReply)
    requires c.Complete() && !t.ValidAt(now)
    requires token != "" && seconds > 0 && later >= now
    ensures var t' := TokenAfter(t, Refresh(c, t, now, TokenJson(token, Some(seconds))));
      && t'.ValidAt(now)
      && (later < now + MillisPerSecond * seconds <==> Refresh(c, t', later, reply) == CacheHit)
      && (later >= now + MillisPerSecond * seconds ==> Refresh(c, t', later, reply).Requested())
  {
  }
}
