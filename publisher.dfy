/**
 * `post_to_facebook(caption, image_path)`: publishes a photo with a caption
 * to the Page named by the FB_PAGE_ID / FB_PAGE_ACCESS_TOKEN settings. It
 * never raises: every path ends in a result dictionary with a status and a
 * message. The settings, the file system and the Graph API are inputs.
 */
module ImagePublisher {
  import opened Wrappers
  import opened PythonSemantics

  /** The `status` key: "success" or "error". */
  datatype Status = Succeeded | Errored

  /** The dictionary the function returns; `postId` and `details` are the optional keys. */
  datatype PublishResult = PublishResult(
    status: Status,
    message: string,
    postId: Option<string>,
    details: Option<string>)

  /** The parsed JSON the photo endpoint answered: its `id` and `error` keys. */
  datatype GraphReply = GraphReply(id: Option<string>, error: Option<string>)

  /**
   * Opening the file, posting it and decoding the answer either raised (with
   * the text of the exception) or produced a reply.
   */
  datatype Exchange = Raised(text: string) | Answered(reply: GraphReply)

  /**
   * What the function depends on besides its arguments: the two environment
   * settings, `os.path.exists` (fileExists), and the photo upload as a function of the
   * page id, the access token, the caption and the image path.
   */
  datatype PublishEnv = PublishEnv(
    pageId: Option<string>,
    accessToken: Option<string>,
    fileExists: string -> bool,
    upload: (string, string, string, string) -> Exchange)

  const CredentialsMessage := "Facebook credentials (FB_PAGE_ID, FB_PAGE_ACCESS_TOKEN) not set in .env file."
  const ImageNotFoundPrefix := "Image not found at path: "
  const PostedMessage := "\U{2705} Posted successfully to Facebook!"
  const FailedMessage := "\U{274C} Failed to post to Facebook."
  const NoDetails := "No error details provided."

  predicate CredentialsSet(env: PublishEnv) {
    Truthy(env.pageId) && Truthy(env.accessToken)
  }

  /** The upload the function would make once both guards pass. */
  function Upload(env: PublishEnv, caption: string, imagePath: string): Exchange
    requires CredentialsSet(env)
  {
    env.upload(env.pageId.value, env.accessToken.value, caption, imagePath)
  }

  /** The request succeeded exactly when the photo endpoint answered with an `id`. */
  predicate Published(env: PublishEnv, caption: string, imagePath: string) {
    && CredentialsSet(env)
    && env.fileExists(imagePath)
    && Upload(env, caption, imagePath).Answered?
    && Upload(env, caption, imagePath).reply.id.Some?
  }

  function PostToFacebook(env: PublishEnv, caption: string, imagePath: string): (r: PublishResult)
    // success exactly when both guards pass and the reply carries an id
    ensures r.status == Succeeded <==> Published(env, caption, imagePath)
    ensures r.status == Succeeded ==> r.postId == Upload(env, caption, imagePath).reply.id
    ensures r.postId.Some? <==> r.status == Succeeded
    // the credentials are checked before the image path
    ensures !CredentialsSet(env) ==> r == PublishResult(Errored, CredentialsMessage, None, None)
    // a missing image is reported with its path and no request is made
    ensures CredentialsSet(env) && !env.fileExists(imagePath) ==>
      r == PublishResult(Errored, ImageNotFoundPrefix + imagePath, None, None)
    // a reply without an id reports the `error` key, or a default text
    ensures CredentialsSet(env) && env.fileExists(imagePath) &&
            Upload(env, caption, imagePath).Answered? &&
            Upload(env, caption, imagePath).reply.id.None? ==>
      r.message == FailedMessage &&
      r.details == Some(Upload(env, caption, imagePath).reply.error.GetOr(NoDetails))
    // an exception becomes an error carrying its text
    ensures CredentialsSet(env) && env.fileExists(imagePath) && Upload(env, caption, imagePath).Raised? ==>
      r == PublishResult(Errored, Upload(env, caption, imagePath).text, None, None)
  {
    if !CredentialsSet(env) then
      PublishResult(Errored, CredentialsMessage, None, None)
    else if !env.fileExists(imagePath) then
      PublishResult(Errored, ImageNotFoundPrefix + imagePath, None, None)
    else
      match env.upload(env.pageId.value, env.accessToken.value, caption, imagePath)
      case Raised(text) => PublishResult(Errored, text, None, None)
      case Answered(reply) =>
        if reply.id.Some? then
          PublishResult(Succeeded, PostedMessage, reply.id, None)
        else
          PublishResult(Errored, FailedMessage, None, Some(reply.error.GetOr(NoDetails)))
  }

  /**
   * Without credentials or without the image file, the result does not
   * depend on the upload at all: no request is made.
   */
  lemma NoUploadWhenGuardFails(env: PublishEnv, other: (string, string, string, string) -> Exchange,
                               caption: string, imagePath: string)
    requires !CredentialsSet(env) || !env.fileExists(imagePath)
    ensures PostToFacebook(env, caption, imagePath) == PostToFacebook(env.(upload := other), caption, imagePath)
  {
  }

  /** The not-found message names the path: the path is its suffix. */
  lemma {:induction false} NotFoundMessageNamesPath(env: PublishEnv, caption: string, imagePath: string)
    requires CredentialsSet(env) && !env.fileExists(imagePath)
    ensures var m := PostToFacebook(env, caption, imagePath).message;
      |m| >= |imagePath| && m[|m| - |imagePath|..] == imagePath
  {
    var m := PostToFacebook(env, caption, imagePath).message;
    assert m == ImageNotFoundPrefix + imagePath;
  }
}
