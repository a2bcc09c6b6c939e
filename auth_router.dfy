/**
 * routes/facebook/auth_router.py: the OAuth routes. `/facebook/connect`
 * redirects to the authorization dialog, `/facebook/callback` trades the
 * code and lists the user's pages, `/facebook/select-page` stores the chosen
 * page, `/facebook/disconnect` revokes access and
 * `/facebook/verify-connection/{agent_id}` classifies an agent's record.
 */
module AuthRouter {
  import opened Wrappers
  import opened PythonSemantics
  import opened UrlQuery
  import opened Http
  import opened AgentStore
  import opened TokenService
  import FacebookPoster

  const DialogHost := "https://www.facebook.com"
  const DialogUrl := DialogHost + "/v18.0/dialog/oauth"
  const Scope := "pages_manage_posts,pages_read_engagement"

  const AgentIdRequired := HttpException(400, "Agent ID is required")
  const NoPagesFound := HttpException(400, "No Facebook pages found with required permissions")
  const DatabaseOperationFailed := HttpException(500, "Database operation failed")
  const AgentNotFound := HttpException(404, "Agent not found")

  /** The authorization request's parameters (section 4.1.1 of RFC 6749), in order. */
  function AuthParams(svc: FacebookTokenService, agentId: string): seq<Param> {
    [("client_id", svc.appId), ("redirect_uri", Render(svc.redirectUri)), ("state", agentId), ("scope", Scope)]
  }

  /** `start_facebook_auth`: the redirect target, or 400 for an empty agent id. */
  function StartFacebookAuth(svc: FacebookTokenService, agentId: string): (r: Result<string, HttpException>)
    ensures r.Failure? <==> agentId == ""
    ensures r.Failure? ==> r.error == AgentIdRequired
    ensures r.Success? ==> |r.value| > |DialogUrl| && r.value[..|DialogUrl| + 1] == DialogUrl + "?"
  {
    if agentId == "" then Failure(AgentIdRequired)
    else
      var url := Url(DialogUrl, AuthParams(svc, agentId));
      assert url[..|DialogUrl| + 1] == DialogUrl + "?";
      Success(url)
  }

  lemma DialogUrlHasNoQuery()
    ensures '?' !in DialogUrl
  {
    assert '?' !in DialogHost;
    assert '?' !in "/v18.0/dialog/oauth";
  }

  /** `state`, `scope` and `client_id` each occur once among the authorization parameters. */
  lemma AuthParamsLookup(svc: FacebookTokenService, agentId: string)
    ensures Lookup(AuthParams(svc, agentId), "state") == Some(agentId)
    ensures Lookup(AuthParams(svc, agentId), "scope") == Some(Scope)
    ensures Lookup(AuthParams(svc, agentId), "client_id") == Some(svc.appId)
  {
    var params := AuthParams(svc, agentId);
    LookupFirst(params, "state", 2);
    LookupFirst(params, "scope", 3);
    LookupFirst(params, "client_id", 0);
  }

  /**
   * The redirect carries the agent id as `state` and the two page scopes:
   * parsing the URL's query gives back exactly the four parameters, as long
   * as no value contains '&' (nothing is percent-encoded).
   */
  lemma AuthRedirectCarriesState(svc: FacebookTokenService, agentId: string)
    requires agentId != "" && Unambiguous(AuthParams(svc, agentId))
    ensures var query := ParseQuery(QueryOf(StartFacebookAuth(svc, agentId).value));
      query == AuthParams(svc, agentId) &&
      Lookup(query, "state") == Some(agentId) &&
      Lookup(query, "scope") == Some(Scope) &&
      Lookup(query, "client_id") == Some(svc.appId)
  {
    var params := AuthParams(svc, agentId);
    DialogUrlHasNoQuery();
    QueryOfUrl(DialogUrl, params);
    ParseRenderRoundTrip(params);
    AuthParamsLookup(svc, agentId);
  }

  /** One page the user manages, as the callback lists it. */
  datatype Page = Page(id: string, name: string, accessToken: string)

  /** One entry of the `data` list: the keys it carries and their values. */
  type PageJson = map<string, string>

  /** The `me/accounts` answer: failed (request, status or decoding), or its JSON with an optional `data` key. */
  datatype PagesReply = PagesFailed | PagesJson(data: Option<seq<PageJson>>)

  predicate HasPageKeys(entry: PageJson) {
    "id" in entry && "name" in entry && "access_token" in entry
  }

  function PageOf(entry: PageJson): Page
    requires HasPageKeys(entry)
  {
    Page(entry["id"], entry["name"], entry["access_token"])
  }

  /** The list comprehension: KeyError (None) as soon as one entry lacks a key. */
  function ProjectPages(entries: seq<PageJson>): (r: Option<seq<Page>>)
    ensures r.Some? <==> forall i :: 0 <= i < |entries| ==> HasPageKeys(entries[i])
    ensures r.Some? ==> |r.value| == |entries|
    ensures r.Some? ==> forall i :: 0 <= i < |entries| ==> r.value[i] == PageOf(entries[i])
  {
    if |entries| == 0 then Some([])
    else if !HasPageKeys(entries[0]) then None
    else match ProjectPages(entries[1..])
      case None =>
        assert exists i :: 1 <= i < |entries| && !HasPageKeys(entries[i]) by {
          var j :| 0 <= j < |entries[1..]| && !HasPageKeys(entries[1..][j]);
          assert entries[1..][j] == entries[j + 1];
        }
        None
      case Some(rest) =>
        assert forall i :: 1 <= i < |entries| ==> entries[i] == entries[1..][i - 1];
        Some([PageOf(entries[0])] + rest)
  }

  /**
   * `get_facebook_pages`: each entry of `data` reduced to its id, name and
   * access token, in order; any failure and a missing `data` give [].
   */
  function GetFacebookPages(reply: PagesReply): (pages: seq<Page>)
    ensures reply.PagesFailed? || (reply.PagesJson? && reply.data.None?) ==> pages == []
    ensures reply.PagesJson? && reply.data.Some? && ProjectPages(reply.data.value).None? ==> pages == []
    ensures reply.PagesJson? && reply.data.Some? && ProjectPages(reply.data.value).Some? ==>
      |pages| == |reply.data.value| &&
      forall i :: 0 <= i < |pages| ==> pages[i] == PageOf(reply.data.value[i])
  {
    match reply
    case PagesFailed => []
    case PagesJson(data) =>
      match ProjectPages(data.GetOr([]))
      case None => []
      case Some(pages) => pages
  }

  /** What the callback returns: the exchange's result and the pages. */
  datatype CallbackResult = CallbackResult(tokenData: TokenResult, pages: seq<Page>)

  /** The `code` and `state` query constraints of the callback route. */
  predicate CallbackParamsValid(code: string, state: string) {
    |code| >= 10 && |state| >= 1
  }

  /**
   * `handle_facebook_callback`: the exchange's 400 passes through, an empty
   * page list is a 400, and the user token stays stored in both cases.
   */
  method HandleFacebookCallback(svc: FacebookTokenService, code: string, state: string, now: int,
                                endpoint: TokenEndpoint, pagesOf: string -> PagesReply)
    returns (r: Result<CallbackResult, HttpException>)
    modifies svc.db
    ensures svc.db.reachable == old(svc.db.reachable)
    ensures !CallbackParamsValid(code, state) ==> r == Failure(ValidationFailed) && svc.db.agents == old(svc.db.agents)
    ensures CallbackParamsValid(code, state) && !(old(svc.db.reachable) && svc.LongLivedToken(code, endpoint).Some?) ==>
      r == Failure(ExchangeFailed) && svc.db.agents == old(svc.db.agents)
    ensures CallbackParamsValid(code, state) && old(svc.db.reachable) && svc.LongLivedToken(code, endpoint).Some? ==>
      var token := svc.Issued(svc.LongLivedToken(code, endpoint).value, now);
      var pages := GetFacebookPages(pagesOf(svc.LongLivedToken(code, endpoint).value.accessToken.value));
      svc.db.agents == Updated(old(svc.db.agents), state, SetUserToken(token.encryptedToken, token.expiresAt, now), true) &&
      (|pages| == 0 ==> r == Failure(NoPagesFound)) &&
      (|pages| > 0 ==> r == Success(CallbackResult(token, pages)))
  {
    if !CallbackParamsValid(code, state) {
      return Failure(ValidationFailed);
    }
    var exchanged := svc.ExchangeCodeForToken(code, state, now, endpoint);
    if exchanged.Failure? {
      return Failure(exchanged.error);
    }
    DecryptEncrypt(svc.encryptionKey, svc.LongLivedToken(code, endpoint).value.accessToken.value);
    var accessToken := Decrypt(svc.encryptionKey, exchanged.value.encryptedToken);
    var pages := GetFacebookPages(pagesOf(accessToken.value));
    if |pages| == 0 {
      return Failure(NoPagesFound);
    }
    return Success(CallbackResult(exchanged.value, pages));
  }

  /** The form constraints of the select-page route. */
  predicate SelectionValid(pageId: string, pageName: string, pageToken: string, agentId: string) {
    |pageId| >= 5 && |pageName| >= 1 && |pageToken| >= 10 && |agentId| >= 1
  }

  /** What select-page answers. */
  datatype Selected = Selected(pageId: string, pageName: string)

  /** The page-selection update, with the page token encrypted by the service. */
  function SelectionUpdate(svc: FacebookTokenService, pageId: string, pageName: string, pageToken: string, now: int)
    : Update
  {
    SetPage(pageId, pageName, Encrypt(svc.encryptionKey, pageToken), now)
  }

  /**
   * `select_page`: sets the four page fields of an existing agent. A store
   * error is a 500; the 404 raised when no document was modified, which
   * happens exactly when the agent does not exist, is caught by the generic
   * handler and re-raised as a 400 carrying its text.
   */
  method SelectPage(svc: FacebookTokenService, pageId: string, pageName: string, pageToken: string,
                    agentId: string, now: int)
    returns (r: Result<Selected, HttpException>)
    modifies svc.db
    ensures svc.db.reachable == old(svc.db.reachable)
    ensures !SelectionValid(pageId, pageName, pageToken, agentId) ==>
      r == Failure(ValidationFailed) && svc.db.agents == old(svc.db.agents)
    ensures SelectionValid(pageId, pageName, pageToken, agentId) && !old(svc.db.reachable) ==>
      r == Failure(DatabaseOperationFailed) && svc.db.agents == old(svc.db.agents)
    ensures SelectionValid(pageId, pageName, pageToken, agentId) && old(svc.db.reachable) ==>
      svc.db.agents == Updated(old(svc.db.agents), agentId, SelectionUpdate(svc, pageId, pageName, pageToken, now), false) &&
      (r.Success? <==> agentId in old(svc.db.agents)) &&
      (r.Success? ==> r.value == Selected(pageId, pageName)) &&
      (r.Failure? ==> r.error == HttpException(400, Str(AgentNotFound)))
  {
    if !SelectionValid(pageId, pageName, pageToken, agentId) {
      return Failure(ValidationFailed);
    }
    var written := svc.db.UpdateOne(agentId, SelectionUpdate(svc, pageId, pageName, pageToken, now), false);
    if written.Failure? {
      return Failure(DatabaseOperationFailed);
    }
    if written.value == 0 {
      return Failure(HttpException(400, Str(AgentNotFound)));
    }
    return Success(Selected(pageId, pageName));
  }

  /** A selected page's token is the one `get_valid_token` hands out afterwards. */
  lemma SelectedPageTokenIsHandedOut(svc: FacebookTokenService, agents: Agents, agentId: string,
                                     pageId: string, pageName: string, pageToken: string, now: int)
    requires agentId in agents
    ensures var after := Updated(agents, agentId, SelectionUpdate(svc, pageId, pageName, pageToken, now), false);
      svc.PageToken(after, agentId) == Success(pageToken)
  {
    var after := Updated(agents, agentId, SelectionUpdate(svc, pageId, pageName, pageToken, now), false);
    svc.PageTokenRoundTrip(after, agentId, pageToken);
  }

  /** The disconnect route: True is "success", False is "error". */
  method DisconnectRoute(svc: FacebookTokenService, agentId: string, revokeRaises: string -> bool)
    returns (r: Result<string, HttpException>)
    modifies svc.db
    ensures svc.db.reachable == old(svc.db.reachable)
    ensures agentId == "" ==> r == Failure(ValidationFailed) && svc.db.agents == old(svc.db.agents)
    ensures agentId != "" ==> r.Success?
    ensures agentId != "" ==>
      (r.value == "success" <==> svc.DisconnectSucceeds(old(svc.db.agents), old(svc.db.reachable), agentId, revokeRaises))
    ensures agentId != "" ==>
      (r.value == "error" <==> !svc.DisconnectSucceeds(old(svc.db.agents), old(svc.db.reachable), agentId, revokeRaises))
    ensures agentId != "" && r.value == "success" ==> svc.db.agents == WithoutFacebook(old(svc.db.agents), agentId)
    ensures agentId != "" && r.value == "error" ==> svc.db.agents == old(svc.db.agents)
  {
    if agentId == "" {
      return Failure(ValidationFailed);
    }
    var ok := svc.DisconnectFacebook(agentId, revokeRaises);
    return Success(if ok then "success" else "error");
  }

  /** The answers of `verify_connection`. */
  datatype Verification =
    | AgentMissing
    | NotConnected
    | NoPage
    | TokenMissing
    | Linked(pageId: string, pageName: Option<string>, connectedAt: Option<int>)
    | DatabaseError

  /** The HTTP status each answer is sent with. */
  function VerificationStatus(v: Verification): nat {
    match v
    case AgentMissing => 404
    case TokenMissing => 400
    case DatabaseError => 500
    case _ => 200
  }

  /** `verify_connection`: an ordered chain of key-presence tests. */
  function VerifyConnection(agents: Agents, reachable: bool, agentId: string): (r: Verification)
    ensures r == DatabaseError <==> !reachable
    ensures r == AgentMissing <==> reachable && agentId !in agents
    ensures r == NotConnected <==> reachable && agentId in agents && agents[agentId].facebook.None?
    ensures r == NoPage <==>
      reachable && agentId in agents && agents[agentId].facebook.Some? && agents[agentId].facebook.value.pageId.None?
    ensures r == TokenMissing <==>
      reachable && agentId in agents && agents[agentId].facebook.Some? &&
      agents[agentId].facebook.value.pageId.Some? && agents[agentId].facebook.value.pageToken.None?
    ensures r.Linked? <==>
      reachable && agentId in agents && agents[agentId].facebook.Some? &&
      agents[agentId].facebook.value.pageId.Some? && agents[agentId].facebook.value.pageToken.Some?
    ensures r.Linked? ==>
      var fb := agents[agentId].facebook.value;
      Some(r.pageId) == fb.pageId && r.pageName == fb.pageName && r.connectedAt == fb.connectedAt
  {
    if !reachable then DatabaseError
    else if agentId !in agents then AgentMissing
    else match agents[agentId].facebook
      case None => NotConnected
      case Some(fb) =>
        if fb.pageId.None? then NoPage
        else if fb.pageToken.None? then TokenMissing
        else Linked(fb.pageId.value, fb.pageName, fb.connectedAt)
  }

  /**
   * Where the route's key-presence chain and the service's truthiness chain
   * agree: a linked agent whose page id is non-empty is connected for both,
   * with the same page.
   */
  lemma ClassifiersAgreeWhenLinked(agents: Agents, agentId: string, errorText: string)
    requires VerifyConnection(agents, true, agentId).Linked?
    requires VerifyConnection(agents, true, agentId).pageId != ""
    ensures GetConnectionStatus(agents, true, agentId, errorText) ==
      Connected(VerifyConnection(agents, true, agentId).pageId, VerifyConnection(agents, true, agentId).pageName)
  {
    assert FacebookData(agents, agentId) == agents[agentId].facebook.value;
  }

  /**
   * Where they differ: an empty `facebook` entry is "disconnected" for the
   * service but "no page selected" for the route, and an empty page id is
   * "no page selected" for the service but passes the route's check.
   */
  lemma ClassifiersDisagree(agents: Agents, agentId: string, errorText: string)
    requires agentId in agents
    ensures agents[agentId].facebook == Some(EmptyFacebook) ==>
      GetConnectionStatus(agents, true, agentId, errorText) == Disconnected &&
      VerifyConnection(agents, true, agentId) == NoPage
    ensures agents[agentId].facebook.Some? && agents[agentId].facebook.value.pageId == Some("") &&
            agents[agentId].facebook.value.pageToken.Some? ==>
      GetConnectionStatus(agents, true, agentId, errorText) == NoPageSelected &&
      VerifyConnection(agents, true, agentId).Linked?
  {
  }

  /**
   * The poster's ordered checks accept exactly the agents the route reports
   * as linked, and its ValueError texts follow the route's order of checks.
   */
  lemma PosterAcceptsExactlyLinked(agents: Agents, reachable: bool, agentId: string)
    ensures FacebookPoster.VerifyPosterConnection(agents, reachable, agentId).Success? <==>
      VerifyConnection(agents, reachable, agentId).Linked?
    ensures VerifyConnection(agents, reachable, agentId) == AgentMissing <==>
      FacebookPoster.VerifyPosterConnection(agents, reachable, agentId) ==
        Failure(FacebookPoster.Invalid(FacebookPoster.AgentNotFound))
    ensures VerifyConnection(agents, reachable, agentId) == NotConnected <==>
      FacebookPoster.VerifyPosterConnection(agents, reachable, agentId) ==
        Failure(FacebookPoster.Invalid(FacebookPoster.NoConnection))
    ensures VerifyConnection(agents, reachable, agentId) == NoPage <==>
      FacebookPoster.VerifyPosterConnection(agents, reachable, agentId) ==
        Failure(FacebookPoster.Invalid(FacebookPoster.NoPageSelected))
    ensures VerifyConnection(agents, reachable, agentId) == TokenMissing <==>
      FacebookPoster.VerifyPosterConnection(agents, reachable, agentId) ==
        Failure(FacebookPoster.Invalid(FacebookPoster.MissingPageToken))
  {
  }
}
