/**
 * routes/facebook/posts_router.py: the `/posts` route. It validates each
 * uploaded image (extension, then size), names the stored copies after the
 * clock, assembles the `content` dictionary and hands it to the poster;
 * errors become 400 (ValueError) or 500 (anything else). The clock reading
 * taken for each image is a function of the image's position.
 */
module PostsRouter {
  import opened Wrappers
  import opened PythonSemantics
  import opened Http
  import opened AgentStore
  import opened FacebookPoster

  const UploadDir := "uploads"
  const AllowedExtensions: set<string> := {".jpg", ".jpeg", ".png", ".webp"}
  const MaxFileSize := 5 * 1024 * 1024

  /** How the f-string renders the extension set (one fixed iteration order). */
  const AllowedRepr := "{'.jpg', '.jpeg', '.png', '.webp'}"
  const TooLarge := "File too large. Max size: 5.0MB"

  /** The TypeError text of comparing an unknown size with the limit. */
  const SizeUnknown := "'>' not supported between instances of 'NoneType' and 'int'"

  /** An uploaded file: its name and its size, which may be unknown. */
  datatype Upload = Upload(filename: string, size: Option<int>)

  /** What validation raises: a ValueError text, or the TypeError of an unknown size. */
  datatype ImageError = Rejected(message: string) | Unsized

  function TypeNotAllowed(ext: string): string {
    "File type " + ext + " not allowed. Use: " + AllowedRepr
  }

  /** The lowered extension the whitelist is checked against. */
  function CheckedExtension(file: Upload): string {
    Lower(Extension(file.filename))
  }

  /** `validate_image`: None when the file passes, else what it raises. */
  function ValidateImage(file: Upload): Option<ImageError> {
    var ext := CheckedExtension(file);
    if ext !in AllowedExtensions then Some(Rejected(TypeNotAllowed(ext)))
    else if file.size.None? then Some(Unsized)
    else if file.size.value > MaxFileSize then Some(Rejected(TooLarge))
    else None
  }

  /**
   * A file passes exactly when its lowered extension is whitelisted and its
   * size is known and at most 5 MiB; the extension is checked first.
   */
  lemma ValidateImageCases(file: Upload)
    ensures ValidateImage(file).None? <==>
      CheckedExtension(file) in AllowedExtensions && file.size.Some? && file.size.value <= MaxFileSize
    ensures CheckedExtension(file) !in AllowedExtensions ==>
      ValidateImage(file) == Some(Rejected(TypeNotAllowed(CheckedExtension(file))))
    ensures CheckedExtension(file) in AllowedExtensions && file.size.None? ==> ValidateImage(file) == Some(Unsized)
    ensures CheckedExtension(file) in AllowedExtensions && file.size.Some? && file.size.value > MaxFileSize ==>
      ValidateImage(file) == Some(Rejected(TooLarge))
  {
  }

  /**
   * The limit is inclusive: a whitelisted file of exactly 5 MiB passes, one
   * byte more is rejected, whatever the case of its extension.
   */
  lemma SizeLimitInclusive(stem: string, suffix: string)
    requires stem != "" && '/' !in stem && '.' !in stem
    requires |suffix| > 0 && suffix[0] == '.' && '.' !in suffix[1..] && '/' !in suffix
    requires Lower(suffix) in AllowedExtensions
    ensures ValidateImage(Upload(stem + suffix, Some(MaxFileSize))).None?
    ensures ValidateImage(Upload(stem + suffix, Some(MaxFileSize + 1))) == Some(Rejected(TooLarge))
  {
    ExtensionOfStemAndSuffix(stem, suffix);
  }

  /**
   * A name that is only a leading dot and an extension, such as ".png", has
   * no extension for `os.path.splitext` and is rejected whatever its size.
   */
  lemma HiddenNameRejected(size: Option<int>)
    ensures ValidateImage(Upload(".png", size)) == Some(Rejected(TypeNotAllowed("")))
  {
    var p := ".png";
    assert p[0] == '.' && p[1] == 'p' && p[2] == 'n' && p[3] == 'g';
    assert RFind(p, '.') == 0;
    assert SplitExt(p) == (p, "");
  }

  /** The first position holding an error, or -1. */
  function FirstError(checks: seq<Option<ImageError>>): (k: int)
    ensures -1 <= k < |checks|
    ensures k >= 0 ==> checks[k].Some?
    ensures forall j :: 0 <= j < |checks| && (k < 0 || j < k) ==> checks[j].None?
  {
    if |checks| == 0 then -1
    else if checks[0].Some? then 0
    else
      var k := FirstError(checks[1..]);
      assert forall j :: 1 <= j < |checks| ==> checks[j] == checks[1..][j - 1];
      if k < 0 then -1 else k + 1
  }

  /** An error after error-free positions is the first error. */
  lemma FirstErrorAt(checks: seq<Option<ImageError>>, i: int)
    requires 0 <= i < |checks| && checks[i].Some?
    requires forall j :: 0 <= j < i ==> checks[j].None?
    ensures FirstError(checks) == i
  {
  }

  /** Each image's validation result under `validate`, in order. */
  function Verdicts(images: seq<Upload>, validate: Upload -> Option<ImageError>): (vs: seq<Option<ImageError>>)
    ensures |vs| == |images|
    ensures forall i :: 0 <= i < |images| ==> vs[i] == validate(images[i])
  {
    seq(|images|, i requires 0 <= i < |images| => validate(images[i]))
  }

  /** A failing image after passing ones is the first failure. */
  lemma FirstVerdictAt(images: seq<Upload>, validate: Upload -> Option<ImageError>, i: int)
    requires 0 <= i < |images| && validate(images[i]).Some?
    requires forall j :: 0 <= j < i ==> validate(images[j]).None?
    ensures FirstError(Verdicts(images, validate)) == i
  {
    FirstErrorAt(Verdicts(images, validate), i);
  }

  /** When every image passes there is no failure. */
  lemma NoVerdictFails(images: seq<Upload>, validate: Upload -> Option<ImageError>)
    requires forall j :: 0 <= j < |images| ==> validate(images[j]).None?
    ensures FirstError(Verdicts(images, validate)) < 0
  {
  }

  /** The first image that fails `validate_image`, or -1. */
  function FirstInvalid(images: seq<Upload>): (k: int)
    ensures -1 <= k < |images|
    ensures k >= 0 ==> ValidateImage(images[k]).Some?
  {
    FirstError(Verdicts(images, ValidateImage))
  }

  /** Every image before the first invalid one, and every image when none is, passes. */
  lemma FirstInvalidIsFirst(images: seq<Upload>, j: int)
    requires 0 <= j < |images|
    requires FirstInvalid(images) < 0 || j < FirstInvalid(images)
    ensures ValidateImage(images[j]).None?
  {
    assert Verdicts(images, ValidateImage)[j] == ValidateImage(images[j]);
  }

  /** The stored name of an image: the clock reading and the original (unlowered) extension. */
  function StoredName(stamp: string, file: Upload): string {
    stamp + Extension(file.filename)
  }

  /** The `media_ids` entries of the first n images, in order. */
  function MediaIdsUpTo(images: seq<Upload>, n: int, stamps: nat -> string): (ids: seq<Media>)
    requires 0 <= n <= |images|
    ensures |ids| == n
  {
    if n == 0 then []
    else MediaIdsUpTo(images, n - 1, stamps) + [ImageHash(StoredName(stamps(n - 1), images[n - 1]))]
  }

  /** The `media_ids` list: one `{image_hash}` entry per image, in order. */
  function MediaIds(images: seq<Upload>, stamps: nat -> string): (ids: seq<Media>)
    ensures |ids| == |images|
  {
    MediaIdsUpTo(images, |images|, stamps)
  }

  /** The i-th entry names the i-th image after the i-th clock reading and its own extension. */
  lemma {:induction false} MediaIdsAt(images: seq<Upload>, n: int, stamps: nat -> string, i: int)
    requires 0 <= i < n <= |images|
    ensures MediaIdsUpTo(images, n, stamps)[i] == ImageHash(StoredName(stamps(i), images[i]))
    decreases n
  {
    if i < n - 1 {
      MediaIdsAt(images, n - 1, stamps, i);
    }
  }

  /** The `content` dictionary once every image has passed. */
  function ContentOf(text: string, url: Option<string>, images: Option<seq<Upload>>, stamps: nat -> string): Content {
    Content(Some(text),
            if Truthy(url) then url else None,
            if images.Some? && |images.value| > 0 then Some(MediaIds(images.value, stamps)) else None)
  }

  /**
   * The loop of `create_post` over the images: each is validated, then its
   * `{image_hash}` entry appended; the first invalid image stops the loop.
   * The validator is a parameter, so that the loop's proof does not depend
   * on what `validate_image` checks; the route passes ValidateImage.
   */
  method CollectMedia(files: seq<Upload>, stamps: nat -> string, validate: Upload -> Option<ImageError>)
    returns (r: Result<seq<Media>, ImageError>)
    ensures r.Failure? <==> FirstError(Verdicts(files, validate)) >= 0
    ensures r.Failure? ==> Some(r.error) == validate(files[FirstError(Verdicts(files, validate))])
    ensures r.Success? ==> r.value == MediaIds(files, stamps)
  {
    var mediaIds: seq<Media> := [];
    var i := 0;
    while i < |files|
      invariant 0 <= i <= |files|
      invariant mediaIds == MediaIdsUpTo(files, i, stamps)
      invariant forall j :: 0 <= j < i ==> validate(files[j]).None?
    {
      var error := validate(files[i]);
      if error.Some? {
        FirstVerdictAt(files, validate, i);
        return Failure(error.value);
      }
      mediaIds := mediaIds + [ImageHash(StoredName(stamps(i), files[i]))];
      i := i + 1;
    }
    NoVerdictFails(files, validate);
    return Success(mediaIds);
  }

  /**
   * The `content` dictionary `create_post` builds: the text, the url when
   * it is truthy, and `media_ids` when the image list is non-empty.
   */
  method AssembleContent(text: string, url: Option<string>, images: Option<seq<Upload>>, stamps: nat -> string)
    returns (r: Result<Content, ImageError>)
    ensures r.Failure? <==> FirstInvalid(images.GetOr([])) >= 0
    ensures r.Failure? ==> r.error == ValidateImage(images.value[FirstInvalid(images.value)]).value
    ensures r.Success? ==> r.value == ContentOf(text, url, images, stamps)
  {
    var content := Content(Some(text), None, None);
    if Truthy(url) {
      content := content.(url := url);
    }
    if images.Some? && |images.value| > 0 {
      var mediaIds := CollectMedia(images.value, stamps, ValidateImage);
      if mediaIds.Failure? {
        return Failure(mediaIds.error);
      }
      content := content.(mediaIds := Some(mediaIds.value));
    }
    return Success(content);
  }

  /** How `create_post` reports an image error: ValueError is 400, the TypeError 500. */
  function ImageFailure(e: ImageError): HttpException {
    match e
    case Rejected(message) => HttpException(400, message)
    case Unsized => HttpException(500, SizeUnknown)
  }

  /** The required form fields `agent_id` and `text`: FastAPI takes an empty value as missing. */
  predicate FormFieldsPresent(agentId: string, text: string) {
    agentId != "" && text != ""
  }

  /**
   * `create_post`: a missing form field is FastAPI's 422 before the handler
   * runs; an invalid image aborts before the poster is called; the poster's
   * own HTTPException, 400 or 500, is caught by the generic handler and
   * re-raised as a 500 carrying its text. On success the poster has pushed
   * the one post record.
   */
  method CreatePost(poster: Poster, agentId: string, text: string, url: Option<string>,
                    images: Option<seq<Upload>>, stamps: nat -> string, now: int, feed: Feed)
    returns (r: Result<PostResponse, HttpException>)
    modifies poster.tokens.db
    ensures poster.tokens.db.reachable == old(poster.tokens.db.reachable)
    ensures !FormFieldsPresent(agentId, text) ==> r == Failure(ValidationFailed)
    ensures FormFieldsPresent(agentId, text) && FirstInvalid(images.GetOr([])) >= 0 ==>
      r == Failure(ImageFailure(ValidateImage(images.value[FirstInvalid(images.value)]).value))
    ensures FormFieldsPresent(agentId, text) && FirstInvalid(images.GetOr([])) < 0 ==>
      var published := poster.Published(old(poster.tokens.db.agents), old(poster.tokens.db.reachable), agentId,
                                        ContentOf(text, url, images, stamps), feed);
      (r.Success? <==> published.Some?) &&
      (r.Success? ==> r.value == ResponseOf(published.value)) &&
      (r.Success? ==>
         poster.tokens.db.agents ==
           Updated(old(poster.tokens.db.agents), agentId, PushPost(RecordOf(published.value, text, now)), false)) &&
      (r.Failure? ==> r.error.status == 500)
    ensures r.Failure? ==> poster.tokens.db.agents == old(poster.tokens.db.agents)
  {
    if !FormFieldsPresent(agentId, text) {
      return Failure(ValidationFailed);
    }
    var content := AssembleContent(text, url, images, stamps);
    if content.Failure? {
      return Failure(ImageFailure(content.error));
    }
    var result := poster.PostToPage(agentId, content.value, now, feed);
    if result.Failure? {
      return Failure(HttpException(500, Str(result.error)));
    }
    return Success(result.value);
  }
}
