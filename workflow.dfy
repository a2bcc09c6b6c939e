/**
 * The state and the nodes of the branding-to-post workflow
 * (branding_to_post_graph.py): the `BrandingPostState` record, the seven
 * node functions, each mapping the state to a partial update, the
 * requirement check and the router that follows it.
 *
 * A node reads keys with `state["k"]`, so a key the state does not hold
 * raises KeyError; nothing in the nodes catches it, and neither does
 * anything around the graph run. The language model, the image step's file
 * work and the publisher are collaborators passed in as functions.
 */
module Workflow {
  import opened Wrappers
  import opened PythonSemantics
  import ImagePublisher

  /** The keys of `BrandingPostState` (the WebSocket handle is not modelled). */
  datatype Field =
    | UserInput | BrandSuggestions | VisualPrompts | ImagePath
    | Location | Price | Bedrooms | Features
    | BasePost | MissingInfo | PostResult | ClientId

  /** A value stored under a key. */
  datatype Value =
    | Text(text: string)
    | Texts(items: seq<string>)
    | Published(result: ImagePublisher.PublishResult)

  /**
   * `BrandingPostState`. `None` stands for a key the state does not hold.
   * The partial updates nodes return have the same shape: the keys they
   * hold are the keys they set.
   */
  datatype State = State(
    userInput: Option<string>,
    brandSuggestions: Option<string>,
    visualPrompts: Option<string>,
    imagePath: Option<string>,
    location: Option<string>,
    price: Option<string>,
    bedrooms: Option<string>,
    features: Option<seq<string>>,
    basePost: Option<string>,
    missingInfo: Option<seq<string>>,
    postResult: Option<ImagePublisher.PublishResult>,
    clientId: Option<string>)

  /** The update that sets nothing (`{}`). */
  const EmptyPatch := State(None, None, None, None, None, None, None, None, None, None, None, None)

  function TextValue(o: Option<string>): Option<Value> {
    if o.Some? then Some(Text(o.value)) else None
  }

  function TextsValue(o: Option<seq<string>>): Option<Value> {
    if o.Some? then Some(Texts(o.value)) else None
  }

  /** `state.get(key)`. */
  function Get(s: State, f: Field): Option<Value> {
    match f
    case UserInput => TextValue(s.userInput)
    case BrandSuggestions => TextValue(s.brandSuggestions)
    case VisualPrompts => TextValue(s.visualPrompts)
    case ImagePath => TextValue(s.imagePath)
    case Location => TextValue(s.location)
    case Price => TextValue(s.price)
    case Bedrooms => TextValue(s.bedrooms)
    case Features => TextsValue(s.features)
    case BasePost => TextValue(s.basePost)
    case MissingInfo => TextsValue(s.missingInfo)
    case PostResult => if s.postResult.Some? then Some(Published(s.postResult.value)) else None
    case ClientId => TextValue(s.clientId)
  }

  const AllFields: set<Field> := {
    UserInput, BrandSuggestions, VisualPrompts, ImagePath, Location, Price,
    Bedrooms, Features, BasePost, MissingInfo, PostResult, ClientId}

  lemma AllFieldsComplete()
    ensures forall f: Field :: f in AllFields
  {
    forall f: Field ensures f in AllFields {
      match f
      case UserInput => case BrandSuggestions => case VisualPrompts => case ImagePath =>
      case Location => case Price => case Bedrooms => case Features =>
      case BasePost => case MissingInfo => case PostResult => case ClientId =>
    }
  }

  /** The keys a state, or an update, holds. */
  function Keys(p: State): (ks: set<Field>)
    ensures forall f :: f in ks <==> Get(p, f).Some?
  {
    AllFieldsComplete();
    set f | f in AllFields && Get(p, f).Some?
  }

  function Pick<T>(update: Option<T>, current: Option<T>): Option<T> {
    if update.Some? then update else current
  }

  /** The record `dict.update` produces, field by field. */
  function Overlay(s: State, p: State): State {
    State(
      Pick(p.userInput, s.userInput),
      Pick(p.brandSuggestions, s.brandSuggestions),
      Pick(p.visualPrompts, s.visualPrompts),
      Pick(p.imagePath, s.imagePath),
      Pick(p.location, s.location),
      Pick(p.price, s.price),
      Pick(p.bedrooms, s.bedrooms),
      Pick(p.features, s.features),
      Pick(p.basePost, s.basePost),
      Pick(p.missingInfo, s.missingInfo),
      Pick(p.postResult, s.postResult),
      Pick(p.clientId, s.clientId))
  }

  lemma OverlayGet(s: State, p: State)
    ensures forall f :: Get(Overlay(s, p), f) == if f in Keys(p) then Get(p, f) else Get(s, f)
    ensures Keys(Overlay(s, p)) == Keys(s) + Keys(p)
  {
    var r := Overlay(s, p);
    forall f ensures Get(r, f) == if f in Keys(p) then Get(p, f) else Get(s, f) {
      match f
      case UserInput => case BrandSuggestions => case VisualPrompts => case ImagePath =>
      case Location => case Price => case Bedrooms => case Features =>
      case BasePost => case MissingInfo => case PostResult => case ClientId =>
    }
    assert forall f :: f in Keys(r) <==> f in Keys(s) + Keys(p);
  }

  /**
   * Applying a node's update to the running state: every key the update
   * holds takes the update's value, every other key keeps its value.
   */
  function Merge(s: State, p: State): (r: State)
    ensures forall f :: Get(r, f) == if f in Keys(p) then Get(p, f) else Get(s, f)
    ensures Keys(r) == Keys(s) + Keys(p)
  {
    OverlayGet(s, p);
    Overlay(s, p)
  }

  /** The nodes `build_graph` registers, by the names it gives them. */
  datatype Node =
    | CreateBranding | CreateVisuals | GenerateImage | CheckRequirements
    | GeneratePost | PostToFacebook | PauseForInput

  function Name(n: Node): string {
    match n
    case CreateBranding => "create_branding"
    case CreateVisuals => "create_visuals"
    case GenerateImage => "generate_image"
    case CheckRequirements => "check_requirements"
    case GeneratePost => "generate_post"
    case PostToFacebook => "post_to_facebook"
    case PauseForInput => "pause_for_input"
  }

  /** The values the post-writing prompt is filled with. */
  datatype PostPrompt = PostPrompt(
    location: string,
    price: string,
    bedrooms: string,
    features: string,
    brandSuggestions: string)

  /**
   * The collaborators: the three prompt chains (prompt, model, output parser
   * and `.strip()`), each giving the text or None when the call raised, and
   * the environment of `post_to_facebook`.
   */
  datatype Collaborators = Collaborators(
    branding: string -> Option<string>,
    visuals: string -> Option<string>,
    post: PostPrompt -> Option<string>,
    publisher: ImagePublisher.PublishEnv)

  /** Why a node raised: a key it subscripts is missing, or a model call failed. */
  datatype NodeError = KeyError(key: Field) | CallFailed

  /** A node either returns its update or raises. */
  datatype Outcome = Patch(patch: State) | Raised(error: NodeError)

  /** create_branding_node: brand names and slogans from the business idea. */
  function CreateBrandingNode(s: State, c: Collaborators): (r: Outcome)
    ensures s.userInput.None? ==> r == Raised(KeyError(UserInput))
    ensures r.Patch? <==> s.userInput.Some? && c.branding(s.userInput.value).Some?
    ensures r.Patch? ==>
      Keys(r.patch) == {BrandSuggestions} && r.patch.brandSuggestions == c.branding(s.userInput.value)
  {
    if s.userInput.None? then Raised(KeyError(UserInput))
    else match c.branding(s.userInput.value)
      case None => Raised(CallFailed)
      case Some(text) => Patch(EmptyPatch.(brandSuggestions := Some(text)))
  }

  /** create_visual_prompt_node: an image-generator prompt from the branding. */
  function CreateVisualPromptNode(s: State, c: Collaborators): (r: Outcome)
    ensures s.brandSuggestions.None? ==> r == Raised(KeyError(BrandSuggestions))
    ensures r.Patch? <==> s.brandSuggestions.Some? && c.visuals(s.brandSuggestions.value).Some?
    ensures r.Patch? ==>
      Keys(r.patch) == {VisualPrompts} && r.patch.visualPrompts == c.visuals(s.brandSuggestions.value)
  {
    if s.brandSuggestions.None? then Raised(KeyError(BrandSuggestions))
    else match c.visuals(s.brandSuggestions.value)
      case None => Raised(CallFailed)
      case Some(text) => Patch(EmptyPatch.(visualPrompts := Some(text)))
  }

  const ImageDir := "generated_images"
  const ImageSuffix := "_image.png"

  /** `os.path.join("generated_images", f"{client_id}_image.png")`. */
  function ImagePathFor(clientId: string): (path: string)
    ensures |path| >= |ImageSuffix| && path[|path| - |ImageSuffix|..] == ImageSuffix
  {
    var name := clientId + ImageSuffix;
    var path := PathJoin(ImageDir, name);
    assert path[|path| - |ImageSuffix|..] == name[|name| - |ImageSuffix|..];
    path
  }

  /**
   * Two sessions with different client ids never share an image file, even
   * when a client id is an absolute path (which `os.path.join` keeps as is).
   */
  lemma {:induction false} ImagePathInjective(a: string, b: string)
    ensures ImagePathFor(a) == ImagePathFor(b) ==> a == b
  {
    var pa, pb := ImagePathFor(a), ImagePathFor(b);
    var na, nb := a + ImageSuffix, b + ImageSuffix;
    if pa == pb {
      var absA := |na| > 0 && na[0] == '/';
      var absB := |nb| > 0 && nb[0] == '/';
      assert absA <==> pa[0] == '/';
      assert absB <==> pb[0] == '/';
      if absA {
        assert na == nb;
        assert a == na[..|a|] && b == nb[..|b|];
      } else {
        assert pa == ImageDir + "/" + na && pb == ImageDir + "/" + nb;
        assert na == pa[|ImageDir| + 1..] && nb == pb[|ImageDir| + 1..];
        assert a == na[..|a|] && b == nb[..|b|];
      }
    }
  }

  /**
   * generate_image_node: the image generator is simulated by copying a
   * placeholder; what the state receives is the path, which depends only on
   * the client id.
   */
  function GenerateImageNode(s: State): (r: Outcome)
    ensures s.visualPrompts.None? ==> r == Raised(KeyError(VisualPrompts))
    ensures s.visualPrompts.Some? && s.clientId.None? ==> r == Raised(KeyError(ClientId))
    ensures r.Patch? <==> s.visualPrompts.Some? && s.clientId.Some?
    ensures r.Patch? ==>
      Keys(r.patch) == {ImagePath} && r.patch.imagePath == Some(ImagePathFor(s.clientId.value))
  {
    if s.visualPrompts.None? then Raised(KeyError(VisualPrompts))
    else if s.clientId.None? then Raised(KeyError(ClientId))
    else Patch(EmptyPatch.(imagePath := Some(ImagePathFor(s.clientId.value))))
  }

  /** The details the post needs, in the order they are checked. */
  const RequiredDetails: seq<string> := ["location", "price", "bedrooms", "features"]

  /** Whether the detail named `name` is present and truthy. */
  predicate Supplied(s: State, name: string) {
    if name == "location" then Truthy(s.location)
    else if name == "price" then Truthy(s.price)
    else if name == "bedrooms" then Truthy(s.bedrooms)
    else if name == "features" then NonEmpty(s.features)
    else true
  }

  /** Reference definition: the names among `names` not supplied, in order. */
  function Unsupplied(names: seq<string>, s: State): seq<string> {
    if |names| == 0 then []
    else (if Supplied(s, names[0]) then [] else [names[0]]) + Unsupplied(names[1..], s)
  }

  /** The `missing` list `check_requirements_for_post_node` builds by appending. */
  function MissingDetails(s: State): (missing: seq<string>)
    ensures missing == Unsupplied(RequiredDetails, s)
  {
    var afterLocation := if !Truthy(s.location) then ["location"] else [];
    var afterPrice := if !Truthy(s.price) then afterLocation + ["price"] else afterLocation;
    var afterBedrooms := if !Truthy(s.bedrooms) then afterPrice + ["bedrooms"] else afterPrice;
    assert RequiredDetails[1..] == ["price", "bedrooms", "features"];
    assert RequiredDetails[1..][1..] == ["bedrooms", "features"];
    assert RequiredDetails[1..][1..][1..] == ["features"];
    assert RequiredDetails[1..][1..][1..][1..] == [];
    assert Unsupplied(["features"], s) == if NonEmpty(s.features) then [] else ["features"];
    assert Unsupplied(["bedrooms", "features"], s)
        == (if Truthy(s.bedrooms) then [] else ["bedrooms"]) + Unsupplied(["features"], s);
    assert Unsupplied(["price", "bedrooms", "features"], s)
        == (if Truthy(s.price) then [] else ["price"]) + Unsupplied(["bedrooms", "features"], s);
    if !NonEmpty(s.features) then afterBedrooms + ["features"] else afterBedrooms
  }

  /** A detail is listed as missing exactly when it is absent or falsy. */
  lemma MissingDetailsExactly(s: State, name: string)
    ensures name in MissingDetails(s) <==> name in RequiredDetails && !Supplied(s, name)
  {
  }

  /** Nothing is missing exactly when all four details are present and non-empty. */
  lemma MissingDetailsEmptyIff(s: State)
    ensures MissingDetails(s) == [] <==>
      Truthy(s.location) && Truthy(s.price) && Truthy(s.bedrooms) && NonEmpty(s.features)
  {
  }

  /** With only the price and the features missing, the list is ["price", "features"]. */
  lemma MissingPriceAndFeatures(s: State)
    requires Truthy(s.location) && Truthy(s.bedrooms)
    requires !Truthy(s.price) && !NonEmpty(s.features)
    ensures MissingDetails(s) == ["price", "features"]
  {
  }

  /** check_requirements_for_post_node: pure, never raises. */
  function CheckRequirementsForPostNode(s: State): (r: Outcome)
    ensures r.Patch? && Keys(r.patch) == {MissingInfo}
    ensures r.patch.missingInfo == Some(MissingDetails(s))
  {
    Patch(EmptyPatch.(missingInfo := Some(MissingDetails(s))))
  }

  /** decide_after_requirements: pause exactly when `missing_info` is truthy. */
  function DecideAfterRequirements(s: State): (next: string)
    ensures next == Name(PauseForInput) <==> NonEmpty(s.missingInfo)
    ensures next == Name(GeneratePost) <==> !NonEmpty(s.missingInfo)
  {
    if NonEmpty(s.missingInfo) then "pause_for_input" else "generate_post"
  }

  /** The prompt values of generate_post_node; the features are joined with ", ". */
  function PromptOf(s: State): PostPrompt
    requires s.location.Some? && s.price.Some? && s.bedrooms.Some?
    requires s.features.Some? && s.brandSuggestions.Some?
  {
    PostPrompt(s.location.value, s.price.value, s.bedrooms.value,
               Join(", ", s.features.value), s.brandSuggestions.value)
  }

  predicate HasPostInputs(s: State) {
    s.location.Some? && s.price.Some? && s.bedrooms.Some? && s.features.Some? && s.brandSuggestions.Some?
  }

  /**
   * generate_post_node: the post text from the details and the branding.
   * The prompt dictionary is built key by key, so the first absent one of
   * location, price, bedrooms, features, brand_suggestions raises.
   */
  function GeneratePostNode(s: State, c: Collaborators): (r: Outcome)
    ensures s.location.None? ==> r == Raised(KeyError(Location))
    ensures s.location.Some? && s.price.None? ==> r == Raised(KeyError(Price))
    ensures s.location.Some? && s.price.Some? && s.bedrooms.None? ==> r == Raised(KeyError(Bedrooms))
    ensures s.location.Some? && s.price.Some? && s.bedrooms.Some? && s.features.None? ==>
      r == Raised(KeyError(Features))
    ensures r.Patch? <==> HasPostInputs(s) && c.post(PromptOf(s)).Some?
    ensures r.Patch? ==> Keys(r.patch) == {BasePost} && r.patch.basePost == c.post(PromptOf(s))
  {
    if s.location.None? then Raised(KeyError(Location))
    else if s.price.None? then Raised(KeyError(Price))
    else if s.bedrooms.None? then Raised(KeyError(Bedrooms))
    else if s.features.None? then Raised(KeyError(Features))
    else if s.brandSuggestions.None? then Raised(KeyError(BrandSuggestions))
    else match c.post(PromptOf(s))
      case None => Raised(CallFailed)
      case Some(text) => Patch(EmptyPatch.(basePost := Some(text)))
  }

  /** post_to_facebook_node: publishes the post; only a missing key raises. */
  function PostToFacebookNode(s: State, c: Collaborators): (r: Outcome)
    ensures s.basePost.None? ==> r == Raised(KeyError(BasePost))
    ensures s.basePost.Some? && s.imagePath.None? ==> r == Raised(KeyError(ImagePath))
    ensures r.Patch? <==> s.basePost.Some? && s.imagePath.Some?
    ensures r.Patch? ==>
      Keys(r.patch) == {PostResult} &&
      r.patch.postResult == Some(ImagePublisher.PostToFacebook(c.publisher, s.basePost.value, s.imagePath.value))
  {
    if s.basePost.None? then Raised(KeyError(BasePost))
    else if s.imagePath.None? then Raised(KeyError(ImagePath))
    else Patch(EmptyPatch.(postResult :=
      Some(ImagePublisher.PostToFacebook(c.publisher, s.basePost.value, s.imagePath.value))))
  }

  /** The `pause_for_input` node, `lambda state: {}`. */
  function PauseForInputNode(s: State): (r: Outcome)
    ensures r.Patch? && Keys(r.patch) == {}
  {
    Patch(EmptyPatch)
  }

  /** The key each node's update sets. */
  function OutputKeys(n: Node): set<Field> {
    match n
    case CreateBranding => {BrandSuggestions}
    case CreateVisuals => {VisualPrompts}
    case GenerateImage => {ImagePath}
    case CheckRequirements => {MissingInfo}
    case GeneratePost => {BasePost}
    case PostToFacebook => {PostResult}
    case PauseForInput => {}
  }

  /** Running the function registered under a node. */
  function Step(n: Node, s: State, c: Collaborators): (r: Outcome)
    ensures r.Patch? ==> Keys(r.patch) == OutputKeys(n)
    ensures n == CheckRequirements || n == PauseForInput ==> r.Patch?
  {
    match n
    case CreateBranding => CreateBrandingNode(s, c)
    case CreateVisuals => CreateVisualPromptNode(s, c)
    case GenerateImage => GenerateImageNode(s)
    case CheckRequirements => CheckRequirementsForPostNode(s)
    case GeneratePost => GeneratePostNode(s, c)
    case PostToFacebook => PostToFacebookNode(s, c)
    case PauseForInput => PauseForInputNode(s)
  }

  /**
   * Merging a node's update into the state changes its one output key and
   * leaves every other key as it was.
   */
  lemma StepChangesOnlyItsKey(n: Node, s: State, c: Collaborators)
    requires Step(n, s, c).Patch?
    ensures var after := Merge(s, Step(n, s, c).patch);
      (forall f :: f !in OutputKeys(n) ==> Get(after, f) == Get(s, f)) &&
      (forall f :: f in OutputKeys(n) ==> Get(after, f).Some? && Get(after, f) == Get(Step(n, s, c).patch, f))
  {
  }
}
