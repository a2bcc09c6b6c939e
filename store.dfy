/**
 * The `real_estate.agents` collection: one document per agent id, with an
 * optional `facebook` sub-document. Every write the integration makes is one
 * `update_one` with a field-level `$set`, an `$unset` of the sub-document or
 * a `$push` onto `facebook.posts`; this module gives those updates and the
 * collection they apply to. Fernet tokens are modelled as values sealed with
 * the key that made them.
 */
module AgentStore {
  import opened Wrappers

  /** A Fernet token: only the key it was made with opens it. */
  datatype Sealed = Sealed(key: string, plain: string)

  function Encrypt(key: string, plain: string): Sealed {
    Sealed(key, plain)
  }

  /** `cipher.decrypt(token)`; None where Fernet raises InvalidToken. */
  function Decrypt(key: string, token: Sealed): Option<string> {
    if token.key == key then Some(token.plain) else None
  }

  /** Decrypting with the key that encrypted gives the text back. */
  lemma DecryptEncrypt(key: string, plain: string)
    ensures Decrypt(key, Encrypt(key, plain)) == Some(plain)
  {
  }

  /** One entry of `facebook.posts`. */
  datatype PostRecord = PostRecord(id: Option<string>, text: string, url: string, createdAt: int)

  /** The `facebook` sub-document; None is an absent key. Times are in seconds. */
  datatype Facebook = Facebook(
    userToken: Option<Sealed>,
    tokenExpires: Option<int>,
    lastUpdated: Option<int>,
    pageId: Option<string>,
    pageName: Option<string>,
    pageToken: Option<Sealed>,
    connectedAt: Option<int>,
    posts: Option<seq<PostRecord>>)

  /** The empty sub-document `{}`. */
  const EmptyFacebook := Facebook(None, None, None, None, None, None, None, None)

  /** An agent document; only its `facebook` key matters here. */
  datatype Agent = Agent(facebook: Option<Facebook>)

  type Agents = map<string, Agent>

  /** The update documents the integration sends. */
  datatype Update =
    | SetUserToken(token: Sealed, expires: int, updated: int)
    | SetRefreshedToken(token: Sealed, expires: int)
    | SetPage(pageId: string, pageName: string, pageToken: Sealed, connectedAt: int)
    | UnsetFacebook
    | PushPost(post: PostRecord)

  /**
   * The document after an update: a `$set` or `$push` on a dotted path
   * creates the `facebook` sub-document when it is absent, `$push` creates
   * the list when it is absent.
   */
  function Apply(u: Update, a: Agent): Agent {
    var fb := a.facebook.GetOr(EmptyFacebook);
    match u
    case SetUserToken(t, e, n) =>
      Agent(Some(fb.(userToken := Some(t), tokenExpires := Some(e), lastUpdated := Some(n))))
    case SetRefreshedToken(t, e) =>
      Agent(Some(fb.(userToken := Some(t), tokenExpires := Some(e))))
    case SetPage(id, name, t, at) =>
      Agent(Some(fb.(pageId := Some(id), pageName := Some(name), pageToken := Some(t), connectedAt := Some(at))))
    case UnsetFacebook =>
      Agent(None)
    case PushPost(p) =>
      Agent(Some(fb.(posts := Some(fb.posts.GetOr([]) + [p]))))
  }

  /** The collection after `update_one({"_id": id}, u, upsert=upsert)`. */
  function Updated(agents: Agents, id: string, u: Update, upsert: bool): Agents {
    if id in agents then agents[id := Apply(u, agents[id])]
    else if upsert then agents[id := Apply(u, Agent(None))]
    else agents
  }

  /**
   * `modified_count`: one when a matched document changed. A `$set` always
   * carries a freshly encrypted token (Fernet draws a new IV and timestamp
   * for every token, so it never equals the stored one) and a `$push` always
   * lengthens the list, so only an `$unset` of an absent entry leaves a
   * matched document as it was.
   */
  function ModifiedCount(agents: Agents, id: string, u: Update): nat {
    if id !in agents then 0
    else if u.UnsetFacebook? && agents[id].facebook.None? then 0
    else 1
  }

  /** An update touches only the document it names, and adds it only on upsert. */
  lemma UpdatedTouchesOnlyItsDocument(agents: Agents, id: string, u: Update, upsert: bool)
    ensures var after := Updated(agents, id, u, upsert);
      (forall other :: other != id ==> (other in after <==> other in agents)) &&
      (forall other :: other != id && other in agents ==> after[other] == agents[other]) &&
      (id in after <==> id in agents || upsert) &&
      (id in after ==> after[id] == Apply(u, if id in agents then agents[id] else Agent(None)))
  {
  }

  /** Setting the user token leaves the page selection and the posts as they were. */
  lemma SetUserTokenKeepsPage(a: Agent, t: Sealed, e: int, n: int)
    ensures var fb := Apply(SetUserToken(t, e, n), a).facebook;
      fb.Some? && fb.value.userToken == Some(t) && fb.value.tokenExpires == Some(e) &&
      fb.value.lastUpdated == Some(n) &&
      (a.facebook.Some? ==>
        fb.value.pageId == a.facebook.value.pageId && fb.value.pageName == a.facebook.value.pageName &&
        fb.value.pageToken == a.facebook.value.pageToken && fb.value.connectedAt == a.facebook.value.connectedAt &&
        fb.value.posts == a.facebook.value.posts)
  {
  }

  /** Pushing a post appends exactly that post and keeps the earlier ones in order. */
  lemma PushPostAppendsOne(a: Agent, p: PostRecord)
    ensures var fb := Apply(PushPost(p), a).facebook;
      fb.Some? && fb.value.posts.Some? &&
      |fb.value.posts.value| == |Posts(a)| + 1 &&
      fb.value.posts.value[..|Posts(a)|] == Posts(a) &&
      fb.value.posts.value[|Posts(a)|] == p &&
      fb.value.(posts := None) == a.facebook.GetOr(EmptyFacebook).(posts := None)
  {
  }

  /** The posts of an agent, empty when the list or the sub-document is absent. */
  function Posts(a: Agent): seq<PostRecord> {
    if a.facebook.Some? then a.facebook.value.posts.GetOr([]) else []
  }

  datatype StoreError = PyMongoError

  /** The collection: the documents, and whether the server answers at all. */
  class AgentsCollection {
    var agents: Agents
    var reachable: bool

    constructor (agents: Agents, reachable: bool)
      ensures this.agents == agents && this.reachable == reachable
    {
      this.agents := agents;
      this.reachable := reachable;
    }

    /** `find_one({"_id": id})`. */
    function FindOne(id: string): (r: Result<Option<Agent>, StoreError>)
      reads this
      ensures r.Failure? <==> !reachable
      ensures r.Success? ==> (r.value.Some? <==> id in agents)
      ensures r.Success? && r.value.Some? ==> r.value.value == agents[id]
    {
      if !reachable then Failure(PyMongoError)
      else if id in agents then Success(Some(agents[id]))
      else Success(None)
    }

    /** `update_one({"_id": id}, u, upsert=upsert)`, answering `modified_count`. */
    method UpdateOne(id: string, u: Update, upsert: bool) returns (r: Result<nat, StoreError>)
      modifies this
      ensures reachable == old(reachable)
      ensures r.Failure? <==> !reachable
      ensures r.Failure? ==> agents == old(agents)
      ensures r.Success? ==> agents == Updated(old(agents), id, u, upsert)
      ensures r.Success? ==> r.value == ModifiedCount(old(agents), id, u)
    {
      if !reachable {
        return Failure(PyMongoError);
      }
      r := Success(ModifiedCount(agents, id, u));
      agents := Updated(agents, id, u, upsert);
    }
  }
}
