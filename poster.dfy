/**
 * services/facebook_poster.py: publishes a post on the agent's selected
 * page and records it under `facebook.posts`. The Graph API feed call is a
 * function passed in; the clock is an integer number of seconds.
 */
module FacebookPoster {
  import opened Wrappers
  import opened PythonSemantics
  import opened Http
  import opened AgentStore
  import opened TokenService

  /** What `_verify_connection` raises: a ValueError text, or the 500 for a store error. */
  datatype ConnectionError = Invalid(message: string) | Raised(exception: HttpException)

  const AgentNotFound := "Agent not found"
  const NoConnection := "No Facebook connection found"
  const NoPageSelected := "No Facebook page selected"
  const MissingPageToken := "Missing page access token"
  const DatabaseError := HttpException(500, "Database error")
  const TextRequired := "Post text is required"
  const PostFailed := HttpException(500, "Failed to post to Facebook page")

  /**
   * `_verify_connection`: the agent's `facebook` entry once it has a page id
   * and a page token, or the first failed check.
   */
  function VerifyPosterConnection(agents: Agents, reachable: bool, agentId: string): (r: Result<Facebook, ConnectionError>)
    ensures !reachable ==> r == Failure(Raised(DatabaseError))
    ensures reachable && agentId !in agents ==> r == Failure(Invalid(AgentNotFound))
    ensures reachable && agentId in agents && agents[agentId].facebook.None? ==> r == Failure(Invalid(NoConnection))
    ensures r.Success? <==>
      reachable && agentId in agents && agents[agentId].facebook.Some? &&
      agents[agentId].facebook.value.pageId.Some? && agents[agentId].facebook.value.pageToken.Some?
    ensures r.Success? ==> Some(r.value) == agents[agentId].facebook
    ensures r.Failure? && r.error.Invalid? ==>
      r.error.message in [AgentNotFound, NoConnection, NoPageSelected, MissingPageToken]
  {
    if !reachable then Failure(Raised(DatabaseError))
    else if agentId !in agents then Failure(Invalid(AgentNotFound))
    else match agents[agentId].facebook
      case None => Failure(Invalid(NoConnection))
      case Some(fb) =>
        if fb.pageId.None? then Failure(Invalid(NoPageSelected))
        else if fb.pageToken.None? then Failure(Invalid(MissingPageToken))
        else Success(fb)
  }

  /** An image reference in `media_ids`. */
  datatype Media = ImageHash(name: string)

  /** The `content` dictionary; None is an absent key. */
  datatype Content = Content(text: Option<string>, url: Option<string>, mediaIds: Option<seq<Media>>)

  /** The feed parameters; None is an absent key. */
  datatype PostParams = PostParams(message: string, published: bool, link: Option<string>, attachedMedia: Option<seq<Media>>)

  /** What the feed call answered: its `id`, `post_id` and `created_time`, each possibly absent. */
  datatype FeedResult = FeedResult(id: Option<string>, postId: Option<string>, createdTime: Option<string>)

  /** The feed call on a page with a page token; None where the SDK raises. */
  type Feed = (string, string, PostParams) -> Option<FeedResult>

  /** What `post_to_page` returns. */
  datatype PostResponse = PostResponse(postId: Option<string>, url: string, createdTime: Option<string>)

  const PostUrlPrefix := "https://facebook.com/"

  /** The post's address; an absent `post_id` renders as "None". */
  function PostUrl(postId: Option<string>): string {
    PostUrlPrefix + Render(postId)
  }

  /**
   * The `params` dictionary: always the message and `published`; `link` and
   * `attached_media` exactly when the content has `url` and `media_ids`.
   */
  method AssembleParams(content: Content) returns (params: PostParams)
    requires content.text.Some?
    ensures params.message == content.text.value && params.published
    ensures params.link.Some? <==> content.url.Some?
    ensures params.link == content.url
    ensures params.attachedMedia.Some? <==> content.mediaIds.Some?
    ensures params.attachedMedia == content.mediaIds
  {
    params := PostParams(content.text.value, true, None, None);
    if content.url.Some? {
      params := params.(link := content.url);
    }
    if content.mediaIds.Some? {
      params := params.(attachedMedia := content.mediaIds);
    }
  }

  /** The record `post_to_page` pushes, and the reply it answers with. */
  function RecordOf(result: FeedResult, text: string, now: int): PostRecord {
    PostRecord(result.id, text, PostUrl(result.postId), now)
  }

  function ResponseOf(result: FeedResult): PostResponse {
    PostResponse(result.id, PostUrl(result.postId), result.createdTime)
  }

  /** The returned address is the one stored with the post. */
  lemma ResponseMatchesRecord(result: FeedResult, text: string, now: int)
    ensures ResponseOf(result).url == RecordOf(result, text, now).url
    ensures ResponseOf(result).postId == RecordOf(result, text, now).id
    ensures result.postId.Some? ==> ResponseOf(result).url == PostUrlPrefix + result.postId.value
    ensures result.postId.None? ==> ResponseOf(result).url == PostUrlPrefix + "None"
  {
  }

  class Poster {
    const apiVersion: string
    const tokens: FacebookTokenService

    constructor (tokens: FacebookTokenService)
      ensures apiVersion == "v18.0" && this.tokens == tokens
    {
      apiVersion := "v18.0";
      this.tokens := tokens;
    }

    /**
     * The feed answer when every step before the write succeeds: the text
     * is set, the connection checks pass, the page token decrypts and the
     * feed call does not raise.
     */
    function Published(agents: Agents, reachable: bool, agentId: string, content: Content, feed: Feed)
      : (r: Option<FeedResult>)
      ensures r.Some? ==> Truthy(content.text) && VerifyPosterConnection(agents, reachable, agentId).Success?
    {
      if !Truthy(content.text) then None
      else match VerifyPosterConnection(agents, reachable, agentId)
        case Failure(_) => None
        case Success(fb) =>
          match Decrypt(tokens.encryptionKey, fb.pageToken.value)
          case None => None
          case Some(token) =>
            feed(fb.pageId.value, token, PostParams(content.text.value, true, content.url, content.mediaIds))
    }

    /**
     * `post_to_page`: text first, then the connection checks; ValueErrors
     * are 400s with their text, every other failure is one 500. On success
     * exactly one record is pushed onto the agent's posts.
     */
    method PostToPage(agentId: string, content: Content, now: int, feed: Feed)
      returns (r: Result<PostResponse, HttpException>)
      modifies tokens.db
      ensures tokens.db.reachable == old(tokens.db.reachable)
      ensures !Truthy(content.text) ==> r == Failure(HttpException(400, TextRequired))
      ensures Truthy(content.text) ==>
        var checked := VerifyPosterConnection(old(tokens.db.agents), old(tokens.db.reachable), agentId);
        (checked.Failure? && checked.error.Invalid? ==> r == Failure(HttpException(400, checked.error.message))) &&
        (checked.Failure? && checked.error.Raised? ==> r == Failure(PostFailed))
      ensures var published := Published(old(tokens.db.agents), old(tokens.db.reachable), agentId, content, feed);
        (r.Success? <==> published.Some?) &&
        (r.Success? ==> r.value == ResponseOf(published.value)) &&
        (r.Success? ==> tokens.db.agents == Updated(old(tokens.db.agents), agentId,
                                                   PushPost(RecordOf(published.value, content.text.value, now)), false))
      ensures r.Failure? ==> tokens.db.agents == old(tokens.db.agents)
      ensures r.Failure? ==> r.error == PostFailed || r.error.status == 400
    {
      if !Truthy(content.text) {
        return Failure(HttpException(400, TextRequired));
      }
      var checked := VerifyPosterConnection(tokens.db.agents, tokens.db.reachable, agentId);
      if checked.Failure? {
        match checked.error
        case Invalid(message) => return Failure(HttpException(400, message));
        case Raised(_) => return Failure(PostFailed);
      }
      var fb := checked.value;
      var token := Decrypt(tokens.encryptionKey, fb.pageToken.value);
      if token.None? {
        return Failure(PostFailed);
      }
      var params := AssembleParams(content);
      var result := feed(fb.pageId.value, token.value, params);
      if result.None? {
        return Failure(PostFailed);
      }
      var record := RecordOf(result.value, content.text.value, now);
      var written := tokens.db.UpdateOne(agentId, PushPost(record), false);
      if written.Failure? {
        return Failure(PostFailed);
      }
      return Success(ResponseOf(result.value));
    }
  }
}
