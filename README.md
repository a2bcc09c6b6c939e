# PropertyAgents: the branding-to-post workflow and the Facebook integration, in Dafny

This project models two parts of the PropertyAgents back end and proves what
they promise.

**The branding-to-post workflow** (`branding_to_post_graph.py`). A LangGraph
state machine takes a business idea, produces brand suggestions, a visual
prompt and an image path, and checks that the property details are present.
It then writes a post and publishes it to a Facebook Page. The model has:

- the `BrandingPostState` record as a datatype whose `None` fields are absent keys;
- the seven nodes as functions from the state to a partial update, or to the exception they raise;
- the requirement check and the router;
- `build_graph` as a method that fills a `StateGraph` builder class step by step;
- the run as a loop that merges each update into the running state before it picks the next node.

The compiled graph has an unconditional edge from `pause_for_input` to
`generate_post`. So a run never stops at the pause: it takes one empty step
and carries on. `WorkflowGraph.BrandingRun` states the whole run. It completes
exactly when the prefix nodes, the four details and the post call all
succeed. It then ends with the final state, through `pause_for_input` exactly
when a detail was missing. Otherwise it stops at a node that raised, after a
proper prefix of one of the two paths.

**The Facebook integration**:

- `services/facebook_token_service.py`: the OAuth code exchange, the token
  refresh threshold, page-token retrieval, disconnection and the
  module-level connection-status classifier;
- `routes/facebook/auth_router.py`: the connect redirect, the callback, page
  listing, page selection, disconnect and connection verification;
- `services/facebook_poster.py`: publishing a post and recording it;
- `routes/facebook/posts_router.py`: image validation and the post route;
- `post_to_facebook_with_image.py`: the stand-alone photo publisher the
  workflow calls.

The `real_estate.agents` MongoDB collection is a class holding a map from
agent id to document, plus a flag that says whether the server answers.
Every write is one `update_one` with a field-level `$set`, an `$unset` or a
`$push` (`AgentStore`). The token service, the collection and the poster are
classes; the routes are methods over them.

Collaborators the code cannot see are parameters:

- the language model chains, which give text or fail;
- the Graph API endpoints, including the SDK feed call and permission revocation;
- `os.path.exists`;
- the clock, as integer seconds, with one reading per image in the post route.

A Fernet token is a value sealed with the key that made it, so only that key opens it.

Files, one module each: `wrappers.dfy` (Option, Result),
`python.dfy` (truthiness, `str.lower`, `str.join`, `os.path.splitext`,
`os.path.join`, `str(int)`), `http.dfy` (HTTPException and its `str`),
`query.dfy` (unescaped query strings and a reference parser),
`publisher.dfy`, `workflow.dfy`, `graph.dfy`, `store.dfy`,
`token_service.dfy`, `auth_router.dfy`, `poster.dfy`, `posts_router.dfy`.

## Model

| member | source | states |
|---|---|---|
| Workflow.Merge | branding_to_post_graph.py:33-47 | merging a node's update into the state: every key the update holds takes its value, every other key keeps its value, and the keys held afterwards are the union |
| Workflow.CreateBrandingNode | branding_to_post_graph.py:59-68 | raises KeyError without `user_input`; otherwise sets exactly `brand_suggestions` to the model's answer, or raises when the call fails |
| Workflow.CreateVisualPromptNode | branding_to_post_graph.py:70-79 | raises KeyError without `brand_suggestions`; otherwise sets exactly `visual_prompts` to the model's answer, or raises when the call fails |
| Workflow.ImagePathFor | branding_to_post_graph.py:114 | the image path always ends in `_image.png` |
| Workflow.ImagePathInjective | branding_to_post_graph.py:97-114 | the image path depends only on `client_id`, and different client ids give different paths, absolute ones as well |
| Workflow.GenerateImageNode | branding_to_post_graph.py:81-118 | raises KeyError for `visual_prompts`, then for `client_id`; otherwise sets exactly `image_path` to the path for the client id |
| Workflow.MissingDetails | branding_to_post_graph.py:121-130 | the list built by appending equals the reference definition: the unsupplied details among location, price, bedrooms, features, in that order |
| Workflow.MissingDetailsExactly | branding_to_post_graph.py:124-128 | a name is listed exactly when it is one of the four details and is absent or falsy |
| Workflow.MissingDetailsEmptyIff | branding_to_post_graph.py:124-130 | nothing is missing iff all four details are present and non-empty |
| Workflow.MissingPriceAndFeatures | branding_to_post_graph.py:124-130 | with only price and features missing the list is `["price", "features"]` |
| Workflow.CheckRequirementsForPostNode | branding_to_post_graph.py:121-130 | never raises, and sets exactly `missing_info` to the missing list |
| Workflow.DecideAfterRequirements | branding_to_post_graph.py:165-172 | answers `pause_for_input` iff `missing_info` is present and non-empty, `generate_post` otherwise |
| Workflow.GeneratePostNode | branding_to_post_graph.py:132-147 | raises KeyError for the first absent key among location, price, bedrooms, features; sets exactly `base_post` iff every input is present and the model answers the prompt with the joined features |
| Workflow.PostToFacebookNode | branding_to_post_graph.py:149-161 | raises KeyError for `base_post`, then for `image_path`; otherwise sets exactly `post_result` to the publisher's result |
| Workflow.PauseForInputNode | branding_to_post_graph.py:191 | the pause node returns the empty update |
| Workflow.Step | branding_to_post_graph.py:183-191 | each registered node's update holds exactly its own output key; check_requirements and the pause never raise |
| Workflow.StepChangesOnlyItsKey | branding_to_post_graph.py:59-191 | after a node's update is merged, its output key is set and every other key is unchanged |
| PythonSemantics.JoinKeepsItemsInOrder | branding_to_post_graph.py:144 | `", ".join(features)` holds every feature, in order, at its offset, with the separator between neighbours |
| WorkflowGraph.StateGraph.Compile | branding_to_post_graph.py:215 | compiling succeeds exactly when the entry point and every edge end are registered nodes, and yields the registered graph |
| WorkflowGraph.BuildGraph | branding_to_post_graph.py:176-215 | raises without a model client; otherwise the builder, filled node by node and edge by edge, compiles to exactly the branding graph |
| WorkflowGraph.BrandingGraphWellFormed | branding_to_post_graph.py:183-213 | every node the edges name is registered |
| WorkflowGraph.BrandingGraphEdges | branding_to_post_graph.py:194-213 | entry `create_branding`, the linear prefix, the branch after check_requirements chosen by the router, pause → generate_post → post_to_facebook → END, and every edge lowers a topological rank |
| WorkflowGraph.Run | branding_to_post_graph.py:176-215 | the run loop, which merges each update before routing, ends with the outcome of the walk from the entry point |
| WorkflowGraph.WalkIsPipeline | branding_to_post_graph.py:194-213 | walking the compiled graph equals the reference pipeline: the four prefix nodes, then the pause and the tail, or the tail alone |
| WorkflowGraph.RunStepsTrace | branding_to_post_graph.py:194-213 | a run of a node list completes the whole list, or stops at the node just after those it completed, which lie at the head of the list |
| WorkflowGraph.RunListPreserves | branding_to_post_graph.py:59-191 | a key that no node of a run writes keeps its value through the run |
| WorkflowGraph.PrefixRun | branding_to_post_graph.py:194-197 | the prefix completes exactly when its keys are present and both model calls answer, and then leaves the state with branding, visual prompt, image path and missing list set |
| WorkflowGraph.PauseIsEmptyStep | branding_to_post_graph.py:191-210 | running the pause first only adds `pause_for_input` to the trace |
| WorkflowGraph.TailRun | branding_to_post_graph.py:132-161 | after the prefix, generate_post then post_to_facebook complete exactly when the details are present and the post call answers; otherwise generate_post raises and nothing is published |
| WorkflowGraph.PipelineRun | branding_to_post_graph.py:194-213 | the reference pipeline's outcome as BrandingRun states it |
| WorkflowGraph.BrandingRun | branding_to_post_graph.py:176-215 | a run completes iff the prefix, the details and the post call succeed, with the final state; it takes 6 nodes or 7 via the pause exactly when a detail is missing; a failure is a raised node after a proper prefix of one of the two paths |
| WorkflowGraph.AbsentDetailFailsAtGeneratePost | branding_to_post_graph.py:141-147 | with a detail key absent, the run goes through the pause and fails at generate_post with KeyError for the first absent key |
| WorkflowGraph.TailRaisesFirstAbsent | branding_to_post_graph.py:141-144 | from the state after the prefix, a missing detail makes generate_post raise KeyError for the first absent key |
| ImagePublisher.PostToFacebook | post_to_facebook_with_image.py:10-44 | success exactly when the credentials are set, the file exists and the reply has an `id`, which becomes `post_id`; credentials are checked before the path; a missing file is reported with its path; a reply without `id` carries its `error` or the default text; an exception becomes an error carrying its text |
| ImagePublisher.NoUploadWhenGuardFails | post_to_facebook_with_image.py:15-19 | without credentials or without the file, the result does not depend on the upload: no request is made |
| ImagePublisher.NotFoundMessageNamesPath | post_to_facebook_with_image.py:18-19 | the not-found message ends with the image path |
| AgentStore.DecryptEncrypt | services/facebook_token_service.py:119-120 | decrypting with the key that encrypted gives the text back |
| AgentStore.UpdatedTouchesOnlyItsDocument | services/facebook_token_service.py:58-66 | an update changes only the document it names, and creates it only on upsert |
| AgentStore.SetUserTokenKeepsPage | services/facebook_token_service.py:58-66 | setting the user token sets token, expiry and update time and leaves page id, page name, page token, connection time and posts as they were |
| AgentStore.PushPostAppendsOne | services/facebook_poster.py:85-88 | `$push` appends exactly the new post after the earlier ones, in order, and changes nothing else |
| AgentStore.AgentsCollection.FindOne | services/facebook_token_service.py:80 | fails exactly when the server does not answer; otherwise finds the document iff the id is present |
| AgentStore.AgentsCollection.UpdateOne | services/facebook_token_service.py:58-66 | fails without writing when the server does not answer; otherwise applies the update and answers the modified count |
| TokenService.FacebookTokenService.Create | services/facebook_token_service.py:15-25 | construction fails iff app id, app secret or encryption key is missing or empty; the redirect URI is not checked |
| TokenService.RefreshDueIff | services/facebook_token_service.py:88 | a refresh is due iff fewer than 604800 seconds remain, expired tokens too |
| TokenService.FacebookTokenService.TokenRequestCarriesCode | services/facebook_token_service.py:31-40 | the token request's query parses back to client id, redirect URI, secret and code, in order |
| TokenService.FacebookTokenService.LongLivedToken | services/facebook_token_service.py:29-52 | a long-lived token is obtained iff the code request answers an `access_token` and the exchange of that short-lived token answers one too; it is the exchange's answer |
| TokenService.FacebookTokenService.ExchangeCodeForToken | services/facebook_token_service.py:27-76 | on success the document is upserted with the encrypted token, the expiry `now + expires_in` (default 5184000 s) and the update time; any failure is the one 400 and writes nothing |
| TokenService.FacebookTokenService.RefreshResult | services/facebook_token_service.py:78-109 | True only for an existing agent with a `facebook` entry whose expiry is due for refresh, when the stored token decrypts and the exchange answers a token and its lifetime |
| TokenService.FacebookTokenService.RefreshTokenIfNeeded | services/facebook_token_service.py:78-109 | answers the reference RefreshResult: the store error and a missing `token_expires` propagate, an absent agent or entry and every caught failure answer False; the document is rewritten with the new token and expiry only when it answers True |
| TokenService.FacebookTokenService.PageToken | services/facebook_token_service.py:114-123 | 404 iff the agent, its entry or its page token is missing; a token handed out is the one that was encrypted |
| TokenService.FacebookTokenService.PageTokenRoundTrip | services/facebook_token_service.py:119-120 | a page token stored encrypted with the service key is handed out as given |
| TokenService.FacebookTokenService.RefreshKeepsPageToken | services/facebook_token_service.py:99-105 | a refresh never changes which page token is handed out |
| TokenService.FacebookTokenService.GetValidToken | services/facebook_token_service.py:111-123 | refreshes first, and its exceptions propagate; then it answers the page token or its 404/500 |
| TokenService.FacebookTokenService.DisconnectFacebook | services/facebook_token_service.py:125-146 | True iff the store answers and any user token decrypts and is revoked without an exception; on True the agent has no `facebook` entry, on False nothing was written |
| TokenService.WithoutFacebook | services/facebook_token_service.py:138-142 | unsetting leaves the agent without a `facebook` entry and every other document as it was |
| TokenService.GetConnectionStatus | services/facebook_token_service.py:149-175 | error iff the store fails; then agent_not_found, disconnected (entry absent or empty), no_page_selected (page id falsy), missing_token, connected with page id and name, each iff its condition |
| Http.Str | routes/facebook/auth_router.py:129 | `str(HTTPException)` ends with the detail text |
| AuthRouter.StartFacebookAuth | routes/facebook/auth_router.py:14-30 | 400 iff the agent id is empty; otherwise the dialog URL followed by its query |
| AuthRouter.AuthParamsLookup | routes/facebook/auth_router.py:22-26 | the authorization request's `state` is the agent id, `scope` the two page scopes, `client_id` the app id |
| AuthRouter.AuthRedirectCarriesState | routes/facebook/auth_router.py:21-27 | the redirect's query parses back to exactly those four parameters in order, carrying `state` and `scope` |
| AuthRouter.ProjectPages | routes/facebook/auth_router.py:78-85 | each entry becomes exactly its id, name and access token, in order; one entry lacking a key fails the list |
| AuthRouter.GetFacebookPages | routes/facebook/auth_router.py:68-88 | the projected pages, or [] when the request fails, `data` is missing or an entry lacks a key |
| AuthRouter.HandleFacebookCallback | routes/facebook/auth_router.py:32-66 | 422 for a short code or state; the exchange's 400 passes through; otherwise the token is stored, and an empty page list is a 400 |
| AuthRouter.SelectPage | routes/facebook/auth_router.py:90-129 | 422 for short fields; a store error is 500; otherwise sets page id, name, encrypted token and connection time, succeeds iff the agent exists, and answers 400 with the text of the 404 iff it does not |
| AuthRouter.SelectedPageTokenIsHandedOut | routes/facebook/auth_router.py:103-114 | the selected page token is the one `get_valid_token` then hands out |
| AuthRouter.DisconnectRoute | routes/facebook/auth_router.py:131-139 | 422 for an empty agent id; otherwise "success" iff the service's disconnect answers True, with the agent's `facebook` entry removed and every other document kept, and "error" iff it answers False, with nothing written |
| AuthRouter.VerifyConnection | routes/facebook/auth_router.py:141-187 | a store error is 500; then 404, disconnected, no_page_selected, 400 missing token, connected with page id, name and connection time, each iff its key-presence condition |
| AuthRouter.ClassifiersAgreeWhenLinked | routes/facebook/auth_router.py:154-183 | a linked agent with a non-empty page id is connected, with the same page, for both classifiers |
| AuthRouter.ClassifiersDisagree | services/facebook_token_service.py:156-165 | an empty entry is disconnected for the service but no_page_selected for the route; an empty page id is no_page_selected for the service but connected for the route |
| AuthRouter.PosterAcceptsExactlyLinked | services/facebook_poster.py:22-29 | the poster's checks accept exactly the agents the route reports linked, and each of its ValueErrors matches the route's answer |
| FacebookPoster.VerifyPosterConnection | services/facebook_poster.py:17-34 | fails in order: database error, agent not found, no connection, no page, no page token; succeeds with the entry otherwise |
| FacebookPoster.AssembleParams | services/facebook_poster.py:60-69 | always the message and `published`; `link` iff the content has a url, `attached_media` iff it has media ids, with their values |
| FacebookPoster.ResponseMatchesRecord | services/facebook_poster.py:78-94 | the returned url and id are the stored ones, `https://facebook.com/` followed by the post id, or "None" |
| FacebookPoster.Poster.Published | services/facebook_poster.py:36-75 | a feed answer exists only when the text is set and the connection checks pass |
| FacebookPoster.Poster.PostToPage | services/facebook_poster.py:36-104 | 400 for empty text before any lookup; the connection's ValueErrors are 400, everything else the one 500; on success exactly one post record is pushed; a failure writes nothing |
| PostsRouter.ValidateImageCases | routes/facebook/posts_router.py:18-27 | a file passes iff its lowered extension is whitelisted and its size is known and at most 5 MiB; the extension is checked before the size, and each failure carries its own message |
| PostsRouter.SizeLimitInclusive | routes/facebook/posts_router.py:26-27 | for any one-dot extension whose lower-case form is whitelisted, exactly 5 MiB passes and one byte more is rejected |
| PostsRouter.HiddenNameRejected | routes/facebook/posts_router.py:21-23 | a name like `.png` has no extension and is rejected |
| PythonSemantics.ExtensionShape | routes/facebook/posts_router.py:21 | an extension is empty, or a dot followed by no other dot and no '/' |
| PythonSemantics.ExtensionOfStemAndSuffix | routes/facebook/posts_router.py:21 | a dot-free, slash-free stem followed by a suffix gives that suffix as the extension |
| PostsRouter.FirstInvalid | routes/facebook/posts_router.py:45-46 | the first image that fails validation, or -1 |
| PostsRouter.FirstInvalidIsFirst | routes/facebook/posts_router.py:45-46 | every image before the first invalid one passes, and every image passes when none is invalid |
| PostsRouter.MediaIdsAt | routes/facebook/posts_router.py:49-60 | the i-th `image_hash` is the i-th clock reading followed by the i-th image's own extension |
| PostsRouter.CollectMedia | routes/facebook/posts_router.py:43-62 | the loop fails iff some image fails validation, with the first failure; otherwise it yields one entry per image, in input order |
| PostsRouter.AssembleContent | routes/facebook/posts_router.py:38-62 | the content has the text, the url iff it is truthy, and `media_ids` iff the image list is non-empty; the first invalid image aborts |
| PostsRouter.CreatePost | routes/facebook/posts_router.py:29-73 | 422 for an empty `agent_id` or `text`; an invalid image aborts before the poster with 400 or 500; otherwise success iff the poster publishes, with exactly its post record pushed onto the agent's posts; any poster failure, even a 400, becomes a 500 carrying its text; a failure writes nothing |

## Left out

- The language model chains (prompt templates, ChatGroq, the output parser and `.strip()`) are functions passed in that answer text or fail.
- The image simulation's file work (`os.makedirs`, the placeholder drawing, `shutil.copy`) is not modelled; only the path the node returns is.
- `send_ws_message` and the WebSocket handle in the state are not modelled, because no node uses them.
- LangGraph's asynchronous runtime is not modelled. The run is a sequential walk over the declared edges.
- `add_edge` in LangGraph may give a node several outgoing edges; `WorkflowGraph.StateGraph.AddEdge` keeps at most one, which is all `build_graph` uses.
- The workflow state cannot hold a key whose value is None. An absent key and a present None are one case here.
- The MongoDB client is a class with a map and a reachability flag. Concurrency is not modelled, and neither is any write failure other than the whole server being unreachable.
- The routes and services `await` synchronous pymongo calls (`routes/facebook/auth_router.py:106`, `services/facebook_poster.py:20` and `:85`). The model treats these as the ordinary calls they were meant to be.
- TokenService.FacebookTokenService.RefreshResult: `token_expires` is stored as integer seconds, so the ISO-string branch (services/facebook_token_service.py:85-86) is not modelled.
- The two `datetime.now()` readings in `exchange_code_for_token` are one `now`. Each image in `create_post` takes its clock reading by position (`stamps`), rendered as text.
- `expires_at.isoformat()` is not rendered; the expiry stays an integer.
- Fernet's random IV, timestamp and key-format checks are not modelled; a token is the plaintext sealed with its key. Their one visible effect is kept: every `$set` writes a fresh token, so `AgentStore.ModifiedCount` counts it as a change of any matched document.
- The Graph API requests, `raise_for_status`, JSON decoding, `FacebookAdsApi.init` and `Page.create_feed` are functions passed in that answer or fail. The publisher's upload also covers opening the file.
- AuthRouter.AuthRedirectCarriesState: it holds only when no value contains '&' and no key contains '='. The source does not percent-encode, so other values are ambiguous.
- TokenService.FacebookTokenService.TokenRequestCarriesCode: the same restriction on '&' and '=' applies.
- AuthRouter.HandleFacebookCallback: FastAPI's 422 answer is one fixed exception; its detail body is not modelled. The same holds for AuthRouter.SelectPage, AuthRouter.DisconnectRoute and PostsRouter.CreatePost.
- The generic `except Exception` branches of `start_facebook_auth`, `handle_facebook_callback`, `disconnect_facebook` (route) and `verify_connection` are not modelled, because no modelled input reaches them.
- PostsRouter.CollectMedia: stated for any validator; `create_post` passes ValidateImage, and AssembleContent states the result for it.
- PythonSemantics.Lower: lower-cases ASCII letters only; other Unicode case mappings are not modelled.
- The set in the "not allowed" message is rendered in one fixed order; Python's set iteration order is not modelled.
- Writing the uploaded bytes to `uploads/` is not modelled. The route's file name is modelled, but the file itself is not.
- `main.py` (CORS, router registration, server start-up) is not part of this model.
- TokenService.GetConnectionStatus: the exception text of a store error is a parameter.
- TokenService.FacebookTokenService.RefreshTokenIfNeeded: the store either answers or fails for a whole call. So a write that fails after a successful read, which `refresh_token_if_needed` would catch, is not a separate case.
