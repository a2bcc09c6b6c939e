/**
 * services/facebook_token_service.py: the service that holds the app
 * credentials and the cipher, trades an OAuth authorization code for a
 * long-lived user token, refreshes that token when it is about to expire,
 * hands out the page token and disconnects an agent. The token endpoint and
 * the permission-revocation call are functions passed in; the clock is an
 * integer number of seconds.
 */
module TokenService {
  import opened Wrappers
  import opened PythonSemantics
  import opened UrlQuery
  import opened Http
  import opened AgentStore

  /** The environment variables the service reads; None is an unset variable. */
  datatype Settings = Settings(
    appId: Option<string>,
    appSecret: Option<string>,
    redirectUri: Option<string>,
    encryptionKey: Option<string>)

  /** What `__init__` demands: the redirect URI is not among the checked settings. */
  predicate CredentialsPresent(s: Settings) {
    Truthy(s.appId) && Truthy(s.appSecret) && Truthy(s.encryptionKey)
  }

  const MissingCredentials := "Missing Facebook API credentials"

  /**
   * The JSON an OAuth token request answered. The endpoint gives None when
   * the request, `raise_for_status` or the decoding raised.
   */
  datatype TokenJson = TokenJson(accessToken: Option<string>, expiresIn: Option<int>)

  type TokenEndpoint = string -> Option<TokenJson>

  const GraphHost := "https://graph.facebook.com"
  const TokenEndpointUrl := GraphHost + "/v18.0/oauth/access_token"
  const DefaultExpiresIn := 5184000
  const SecondsPerDay := 86400
  const RefreshWindow := 7 * SecondsPerDay

  lemma EndpointHasNoQuery()
    ensures '?' !in TokenEndpointUrl
  {
    assert '?' !in GraphHost;
    assert '?' !in "/v18.0/oauth/access_token";
  }

  /** `timedelta(seconds=s).days`: whole days, rounded down. */
  function Days(seconds: int): int {
    seconds / SecondsPerDay
  }

  /** `(expires_at - now).days < 7`. */
  predicate RefreshDue(expires: int, now: int) {
    Days(expires - now) < 7
  }

  /** A refresh is due exactly when less than 604800 seconds remain, expired tokens too. */
  lemma RefreshDueIff(expires: int, now: int)
    ensures RefreshDue(expires, now) <==> expires - now < RefreshWindow
  {
    var d := Days(expires - now);
    assert SecondsPerDay * d <= expires - now < SecondsPerDay * d + SecondsPerDay;
  }

  /** What `exchange_code_for_token` returns: the stored token and its expiry time. */
  datatype TokenResult = TokenResult(encryptedToken: Sealed, expiresAt: int)

  const ExchangeFailed := HttpException(400, "Facebook token exchange failed")
  const NoPageConnected := HttpException(404, "No Facebook page connected")
  const DecryptionFailed := HttpException(500, "Token decryption error")

  /** What `refresh_token_if_needed` raises: a store error, or KeyError on `token_expires`. */
  datatype RefreshError = StoreDown | MissingTokenExpires

  /** What `get_valid_token` raises. */
  datatype TokenError = RefreshRaised(cause: RefreshError) | Http(exception: HttpException)

  class FacebookTokenService {
    const appId: string
    const appSecret: string
    const redirectUri: Option<string>
    const encryptionKey: string
    const db: AgentsCollection

    constructor (settings: Settings, db: AgentsCollection)
      requires CredentialsPresent(settings)
      ensures appId == settings.appId.value && appSecret == settings.appSecret.value
      ensures redirectUri == settings.redirectUri && encryptionKey == settings.encryptionKey.value
      ensures this.db == db
    {
      appId := settings.appId.value;
      appSecret := settings.appSecret.value;
      redirectUri := settings.redirectUri;
      encryptionKey := settings.encryptionKey.value;
      this.db := db;
    }

    /** `FacebookTokenService()`: ValueError unless the three credentials are set and non-empty. */
    static method Create(settings: Settings, db: AgentsCollection) returns (r: Result<FacebookTokenService, string>)
      ensures r.Failure? <==> !CredentialsPresent(settings)
      ensures r.Failure? ==> r.error == MissingCredentials
      ensures r.Success? ==>
        r.value.appId == settings.appId.value && r.value.appSecret == settings.appSecret.value &&
        r.value.redirectUri == settings.redirectUri && r.value.encryptionKey == settings.encryptionKey.value &&
        r.value.db == db
    {
      if !CredentialsPresent(settings) {
        return Failure(MissingCredentials);
      }
      var service := new FacebookTokenService(settings, db);
      return Success(service);
    }

    /** The authorization-code token request (section 4.1.3 of RFC 6749). */
    function CodeRequestParams(code: string): seq<Param> {
      [("client_id", appId), ("redirect_uri", Render(redirectUri)), ("client_secret", appSecret), ("code", code)]
    }

    /**
     * The token request carries the authorization code and the redirect URI
     * it was issued for: parsing the query gives the four parameters back,
     * as long as no value contains '&' (nothing is percent-encoded).
     */
    lemma TokenRequestCarriesCode(code: string)
      requires Unambiguous(CodeRequestParams(code))
      ensures var query := ParseQuery(QueryOf(Url(TokenEndpointUrl, CodeRequestParams(code))));
        query == CodeRequestParams(code) &&
        Lookup(query, "code") == Some(code) &&
        Lookup(query, "redirect_uri") == Some(Render(redirectUri))
    {
      var params := CodeRequestParams(code);
      EndpointHasNoQuery();
      QueryOfUrl(TokenEndpointUrl, params);
      ParseRenderRoundTrip(params);
      LookupFirst(params, "code", 3);
      LookupFirst(params, "redirect_uri", 1);
    }

    /** The request that trades a token for a long-lived one. */
    function ExchangeParams(token: string): seq<Param> {
      [("grant_type", "fb_exchange_token"), ("client_id", appId), ("client_secret", appSecret),
       ("fb_exchange_token", token)]
    }

    /**
     * The long-lived token's JSON, when the code request answered with an
     * `access_token` and the exchange request answered with one too.
     */
    function LongLivedToken(code: string, endpoint: TokenEndpoint): (j: Option<TokenJson>)
      ensures j.Some? ==> j.value.accessToken.Some?
      ensures j.Some? <==>
        var short := endpoint(Url(TokenEndpointUrl, CodeRequestParams(code)));
        short.Some? && short.value.accessToken.Some? &&
        var long := endpoint(Url(TokenEndpointUrl, ExchangeParams(short.value.accessToken.value)));
        long.Some? && long.value.accessToken.Some?
      ensures j.Some? ==>
        var short := endpoint(Url(TokenEndpointUrl, CodeRequestParams(code)));
        short.Some? && short.value.accessToken.Some? &&
        j == endpoint(Url(TokenEndpointUrl, ExchangeParams(short.value.accessToken.value)))
    {
      match endpoint(Url(TokenEndpointUrl, CodeRequestParams(code)))
      case None => None
      case Some(short) =>
        if short.accessToken.None? then None
        else match endpoint(Url(TokenEndpointUrl, ExchangeParams(short.accessToken.value)))
          case None => None
          case Some(long) => if long.accessToken.Some? then Some(long) else None
    }

    /** The token the exchange stores and returns, expiring `expires_in` seconds (default 60 days) after now. */
    function Issued(long: TokenJson, now: int): TokenResult
      requires long.accessToken.Some?
    {
      TokenResult(Encrypt(encryptionKey, long.accessToken.value), now + long.expiresIn.GetOr(DefaultExpiresIn))
    }

    /**
     * `exchange_code_for_token`: on success the agent document is upserted
     * with the encrypted long-lived token, its expiry and the update time;
     * any failure is the one 400 error and leaves the store as it was.
     */
    method ExchangeCodeForToken(code: string, agentId: string, now: int, endpoint: TokenEndpoint)
      returns (r: Result<TokenResult, HttpException>)
      modifies db
      ensures db.reachable == old(db.reachable)
      ensures r.Success? <==> old(db.reachable) && LongLivedToken(code, endpoint).Some?
      ensures r.Success? ==> r.value == Issued(LongLivedToken(code, endpoint).value, now)
      ensures r.Success? ==>
        db.agents == Updated(old(db.agents), agentId, SetUserToken(r.value.encryptedToken, r.value.expiresAt, now), true)
      ensures r.Failure? ==> r.error == ExchangeFailed && db.agents == old(db.agents)
    {
      var long := LongLivedToken(code, endpoint);
      if long.None? {
        return Failure(ExchangeFailed);
      }
      var issued := Issued(long.value, now);
      var written := db.UpdateOne(agentId, SetUserToken(issued.encryptedToken, issued.expiresAt, now), true);
      if written.Failure? {
        return Failure(ExchangeFailed);
      }
      return Success(issued);
    }

    /** The update a refresh writes, or None where the try block catches an exception. */
    function RefreshUpdate(fb: Facebook, now: int, endpoint: TokenEndpoint): Option<Update> {
      if fb.userToken.None? then None
      else match Decrypt(encryptionKey, fb.userToken.value)
        case None => None
        case Some(token) =>
          match endpoint(Url(TokenEndpointUrl, ExchangeParams(token)))
          case None => None
          case Some(j) =>
            if j.accessToken.Some? && j.expiresIn.Some? then
              Some(SetRefreshedToken(Encrypt(encryptionKey, j.accessToken.value), now + j.expiresIn.value))
            else None
    }

    /** Reference definition of what `refresh_token_if_needed` answers. */
    function RefreshResult(agents: Agents, reachable: bool, agentId: string, now: int, endpoint: TokenEndpoint)
      : (r: Result<bool, RefreshError>)
      ensures r == Success(true) ==>
        agentId in agents && agents[agentId].facebook.Some? &&
        agents[agentId].facebook.value.tokenExpires.Some? &&
        RefreshDue(agents[agentId].facebook.value.tokenExpires.value, now) &&
        RefreshUpdate(agents[agentId].facebook.value, now, endpoint).Some?
    {
      if !reachable then Failure(StoreDown)
      else if agentId !in agents || agents[agentId].facebook.None? then Success(false)
      else
        var fb := agents[agentId].facebook.value;
        if fb.tokenExpires.None? then Failure(MissingTokenExpires)
        else if !RefreshDue(fb.tokenExpires.value, now) then Success(false)
        else Success(RefreshUpdate(fb, now, endpoint).Some?)
    }

    /** The collection after `refresh_token_if_needed`: written only when it answers True. */
    function AfterRefresh(agents: Agents, reachable: bool, agentId: string, now: int, endpoint: TokenEndpoint): Agents {
      if RefreshResult(agents, reachable, agentId, now, endpoint) == Success(true) then
        agents[agentId := Apply(RefreshUpdate(agents[agentId].facebook.value, now, endpoint).value, agents[agentId])]
      else agents
    }

    /** `refresh_token_if_needed`. */
    method RefreshTokenIfNeeded(agentId: string, now: int, endpoint: TokenEndpoint) returns (r: Result<bool, RefreshError>)
      modifies db
      ensures db.reachable == old(db.reachable)
      ensures r == RefreshResult(old(db.agents), old(db.reachable), agentId, now, endpoint)
      ensures db.agents == AfterRefresh(old(db.agents), old(db.reachable), agentId, now, endpoint)
    {
      var found := db.FindOne(agentId);
      if found.Failure? {
        return Failure(StoreDown);
      }
      if found.value.None? || found.value.value.facebook.None? {
        return Success(false);
      }
      var fb := found.value.value.facebook.value;
      if fb.tokenExpires.None? {
        return Failure(MissingTokenExpires);
      }
      if !RefreshDue(fb.tokenExpires.value, now) {
        return Success(false);
      }
      var update := RefreshUpdate(fb, now, endpoint);
      if update.None? {
        return Success(false);
      }
      var written := db.UpdateOne(agentId, update.value, false);
      if written.Failure? {
        return Success(false);
      }
      return Success(true);
    }

    /** The decrypted page token of an agent, or the error `get_valid_token` raises. */
    function PageToken(agents: Agents, agentId: string): (r: Result<string, HttpException>)
      ensures r == Failure(NoPageConnected) <==>
        agentId !in agents || agents[agentId].facebook.None? || agents[agentId].facebook.value.pageToken.None?
      ensures r.Success? ==>
        Encrypt(encryptionKey, r.value) == agents[agentId].facebook.value.pageToken.value
    {
      if agentId !in agents || agents[agentId].facebook.None? || agents[agentId].facebook.value.pageToken.None? then
        Failure(NoPageConnected)
      else match Decrypt(encryptionKey, agents[agentId].facebook.value.pageToken.value)
        case None => Failure(DecryptionFailed)
        case Some(token) => Success(token)
    }

    /** A page token stored encrypted with the service key is handed out as it was given. */
    lemma PageTokenRoundTrip(agents: Agents, agentId: string, token: string)
      requires agentId in agents && agents[agentId].facebook.Some?
      requires agents[agentId].facebook.value.pageToken == Some(Encrypt(encryptionKey, token))
      ensures PageToken(agents, agentId) == Success(token)
    {
      DecryptEncrypt(encryptionKey, token);
    }

    /** A refresh rewrites the user token and never the page token. */
    lemma RefreshKeepsPageToken(agents: Agents, reachable: bool, agentId: string, now: int, endpoint: TokenEndpoint)
      ensures PageToken(AfterRefresh(agents, reachable, agentId, now, endpoint), agentId) == PageToken(agents, agentId)
    {
      if RefreshResult(agents, reachable, agentId, now, endpoint) == Success(true) {
        var u := RefreshUpdate(agents[agentId].facebook.value, now, endpoint).value;
        assert u.SetRefreshedToken?;
        assert Apply(u, agents[agentId]).facebook.value.pageToken == agents[agentId].facebook.value.pageToken;
      }
    }

    /** `get_valid_token`: refresh first (its exceptions propagate), then the page token. */
    method GetValidToken(agentId: string, now: int, endpoint: TokenEndpoint) returns (r: Result<string, TokenError>)
      modifies db
      ensures db.reachable == old(db.reachable)
      ensures db.agents == AfterRefresh(old(db.agents), old(db.reachable), agentId, now, endpoint)
      ensures RefreshResult(old(db.agents), old(db.reachable), agentId, now, endpoint).Failure? ==>
        r == Failure(RefreshRaised(RefreshResult(old(db.agents), old(db.reachable), agentId, now, endpoint).error))
      ensures RefreshResult(old(db.agents), old(db.reachable), agentId, now, endpoint).Success? ==>
        (r.Success? <==> PageToken(old(db.agents), agentId).Success?) &&
        (r.Success? ==> r.value == PageToken(old(db.agents), agentId).value) &&
        (r.Failure? ==> r.error == Http(PageToken(old(db.agents), agentId).error))
    {
      var before := db.agents;
      var refreshed := RefreshTokenIfNeeded(agentId, now, endpoint);
      if refreshed.Failure? {
        return Failure(RefreshRaised(refreshed.error));
      }
      RefreshKeepsPageToken(before, db.reachable, agentId, now, endpoint);
      var found := db.FindOne(agentId);
      if found.Failure? {
        assert false;
        return Failure(RefreshRaised(StoreDown));
      }
      var token := PageToken(db.agents, agentId);
      if token.Failure? {
        return Failure(Http(token.error));
      }
      return Success(token.value);
    }

    /**
     * Whether `disconnect_facebook` answers True: the store answers and,
     * when the agent has a user token, it decrypts and the revocation
     * request does not raise.
     */
    predicate DisconnectSucceeds(agents: Agents, reachable: bool, agentId: string, revokeRaises: string -> bool) {
      && reachable
      && (agentId in agents && agents[agentId].facebook.Some? && agents[agentId].facebook.value.userToken.Some? ==>
            var token := Decrypt(encryptionKey, agents[agentId].facebook.value.userToken.value);
            token.Some? && !revokeRaises(token.value))
    }

    /**
     * `disconnect_facebook`: on True the agent has no `facebook` entry (it is
     * True as well when there was none); on False nothing was written.
     */
    method DisconnectFacebook(agentId: string, revokeRaises: string -> bool) returns (ok: bool)
      modifies db
      ensures db.reachable == old(db.reachable)
      ensures ok == DisconnectSucceeds(old(db.agents), old(db.reachable), agentId, revokeRaises)
      ensures ok ==> db.agents == WithoutFacebook(old(db.agents), agentId)
      ensures !ok ==> db.agents == old(db.agents)
    {
      var found := db.FindOne(agentId);
      if found.Failure? {
        return false;
      }
      if found.value.Some? && found.value.value.facebook.Some? {
        var fb := found.value.value.facebook.value;
        if fb.userToken.Some? {
          var token := Decrypt(encryptionKey, fb.userToken.value);
          if token.None? || revokeRaises(token.value) {
            return false;
          }
        }
        var written := db.UpdateOne(agentId, UnsetFacebook, false);
        if written.Failure? {
          return false;
        }
      }
      return true;
    }
  }

  /** The collection once an agent's `facebook` entry is unset; the same when it had none. */
  function WithoutFacebook(agents: Agents, agentId: string): (r: Agents)
    ensures agentId !in r || r[agentId].facebook.None?
    ensures r.Keys == agents.Keys
    ensures forall other :: other in agents && other != agentId ==> r[other] == agents[other]
  {
    if agentId in agents && agents[agentId].facebook.Some? then agents[agentId := Agent(None)] else agents
  }

  /** The answer of the module-level `get_connection_status`. */
  datatype ConnectionStatus =
    | AgentNotFound
    | Disconnected
    | NoPageSelected
    | MissingToken
    | Connected(pageId: string, pageName: Option<string>)
    | StatusError(detail: string)

  /** The agent's `facebook` entry as `agent.get('facebook', {})` reads it. */
  function FacebookData(agents: Agents, agentId: string): Facebook
    requires agentId in agents
  {
    agents[agentId].facebook.GetOr(EmptyFacebook)
  }

  /**
   * `get_connection_status`: an ordered chain of truthiness tests. A store
   * error becomes an `error` status carrying the exception text.
   */
  function GetConnectionStatus(agents: Agents, reachable: bool, agentId: string, errorText: string)
    : (r: ConnectionStatus)
    ensures r.StatusError? <==> !reachable
    ensures r == AgentNotFound <==> reachable && agentId !in agents
    ensures r == Disconnected <==> reachable && agentId in agents && FacebookData(agents, agentId) == EmptyFacebook
    ensures r == NoPageSelected <==>
      reachable && agentId in agents && FacebookData(agents, agentId) != EmptyFacebook &&
      !Truthy(FacebookData(agents, agentId).pageId)
    ensures r == MissingToken <==>
      reachable && agentId in agents && Truthy(FacebookData(agents, agentId).pageId) &&
      FacebookData(agents, agentId).pageToken.None?
    ensures r.Connected? <==>
      reachable && agentId in agents && Truthy(FacebookData(agents, agentId).pageId) &&
      FacebookData(agents, agentId).pageToken.Some?
    ensures r.Connected? ==>
      Some(r.pageId) == FacebookData(agents, agentId).pageId && r.pageName == FacebookData(agents, agentId).pageName
  {
    if !reachable then StatusError(errorText)
    else if agentId !in agents then AgentNotFound
    else
      var fb := FacebookData(agents, agentId);
      if fb == EmptyFacebook then Disconnected
      else if !Truthy(fb.pageId) then NoPageSelected
      else if fb.pageToken.None? then MissingToken
      else Connected(fb.pageId.value, fb.pageName)
  }
}
