/**
 * The compiled workflow graph of branding_to_post_graph.py: `build_graph`
 * registers the nodes and edges on a builder step by step, and a run walks
 * the compiled graph from the entry point, merging each node's update into
 * the running state before choosing the next node.
 *
 * The graph `build_graph` builds has an unconditional edge from
 * `pause_for_input` to `generate_post`, so a run never stops at the pause:
 * it takes one extra, empty step and carries on to `generate_post` and
 * `post_to_facebook`.
 */
module WorkflowGraph {
  import opened Wrappers
  import opened PythonSemantics
  import opened Workflow

  /** Where an edge leads: a node or END. */
  datatype Target = To(node: Node) | End

  /** The routing functions the program defines: only decide_after_requirements. */
  datatype Router = AfterRequirements

  function Route(r: Router, s: State): string {
    match r
    case AfterRequirements => DecideAfterRequirements(s)
  }

  /** A conditional edge: the router and the map from its answers to targets. */
  datatype Branch = Branch(router: Router, paths: map<string, Target>)

  /** A compiled graph: registered nodes, entry point, fixed and conditional edges. */
  datatype Graph = Graph(
    nodes: set<Node>,
    entry: Node,
    edges: map<Node, Target>,
    branches: map<Node, Branch>)

  predicate Registered(nodes: set<Node>, t: Target) {
    t.End? || t.node in nodes
  }

  /** The builder (`StateGraph`) that `build_graph` fills in. */
  class StateGraph {
    var nodes: set<Node>
    var entry: Option<Node>
    var edges: map<Node, Target>
    var branches: map<Node, Branch>

    constructor ()
      ensures nodes == {} && entry == None && edges == map[] && branches == map[]
    {
      nodes := {};
      entry := None;
      edges := map[];
      branches := map[];
    }

    /** `add_node(name, fn)`; a name may be registered only once. */
    method AddNode(n: Node)
      requires n !in nodes
      modifies this
      ensures nodes == old(nodes) + {n}
      ensures entry == old(entry) && edges == old(edges) && branches == old(branches)
    {
      nodes := nodes + {n};
    }

    /** `set_entry_point(name)`. */
    method SetEntryPoint(n: Node)
      modifies this
      ensures entry == Some(n)
      ensures nodes == old(nodes) && edges == old(edges) && branches == old(branches)
    {
      entry := Some(n);
    }

    /** `add_edge(from, to)`; this model keeps at most one fixed edge per node. */
    method AddEdge(from: Node, to: Target)
      requires from !in edges
      modifies this
      ensures edges == old(edges)[from := to]
      ensures nodes == old(nodes) && entry == old(entry) && branches == old(branches)
    {
      edges := edges[from := to];
    }

    /** `add_conditional_edges(from, router, path_map)`. */
    method AddConditionalEdges(from: Node, router: Router, paths: map<string, Target>)
      requires from !in branches
      modifies this
      ensures branches == old(branches)[from := Branch(router, paths)]
      ensures nodes == old(nodes) && entry == old(entry) && edges == old(edges)
    {
      branches := branches[from := Branch(router, paths)];
    }

    /** `compile()`: the graph as registered, or None when it is malformed. */
    method Compile() returns (g: Option<Graph>)
      ensures g.Some? <==> entry.Some? && WellFormed(Graph(nodes, entry.value, edges, branches))
      ensures g.Some? ==> g.value == Graph(nodes, entry.value, edges, branches)
    {
      if entry.Some? && WellFormed(Graph(nodes, entry.value, edges, branches)) {
        g := Some(Graph(nodes, entry.value, edges, branches));
      } else {
        g := None;
      }
    }
  }

  /** What `compile()` checks: the entry point and every edge end are registered nodes. */
  predicate WellFormed(g: Graph) {
    && g.entry in g.nodes
    && (forall n | n in g.edges :: n in g.nodes && Registered(g.nodes, g.edges[n]))
    && (forall n | n in g.branches :: n in g.nodes)
    && (forall n, k | n in g.branches && k in g.branches[n].paths ::
          Registered(g.nodes, g.branches[n].paths[k]))
  }

  /** The graph `build_graph` compiles. */
  const BrandingGraph := Graph(
    {CreateBranding, CreateVisuals, GenerateImage, CheckRequirements, GeneratePost, PostToFacebook, PauseForInput},
    CreateBranding,
    map[
      CreateBranding := To(CreateVisuals),
      CreateVisuals := To(GenerateImage),
      GenerateImage := To(CheckRequirements),
      PauseForInput := To(GeneratePost),
      GeneratePost := To(PostToFacebook),
      PostToFacebook := End],
    map[
      CheckRequirements := Branch(AfterRequirements,
        map["generate_post" := To(GeneratePost), "pause_for_input" := To(PauseForInput)])])

  lemma BrandingGraphWellFormed()
    ensures WellFormed(BrandingGraph)
  {
  }

  const LlmNotInitialized := "LLM not initialized. Cannot build graph."

  /** `build_graph()`: refuses to build without a model client. */
  method BuildGraph(llmReady: bool) returns (g: Result<Graph, string>)
    ensures g.Failure? <==> !llmReady
    ensures g.Failure? ==> g.error == LlmNotInitialized
    ensures g.Success? ==> g.value == BrandingGraph
  {
    if !llmReady {
      return Failure(LlmNotInitialized);
    }
    var builder := new StateGraph();
    builder.AddNode(CreateBranding);
    builder.AddNode(CreateVisuals);
    builder.AddNode(GenerateImage);
    builder.AddNode(CheckRequirements);
    builder.AddNode(GeneratePost);
    builder.AddNode(PostToFacebook);
    builder.AddNode(PauseForInput);
    assert builder.nodes == BrandingGraph.nodes;
    builder.SetEntryPoint(CreateBranding);
    builder.AddEdge(CreateBranding, To(CreateVisuals));
    builder.AddEdge(CreateVisuals, To(GenerateImage));
    builder.AddEdge(GenerateImage, To(CheckRequirements));
    builder.AddConditionalEdges(CheckRequirements, AfterRequirements,
      map["generate_post" := To(GeneratePost), "pause_for_input" := To(PauseForInput)]);
    builder.AddEdge(PauseForInput, To(GeneratePost));
    builder.AddEdge(GeneratePost, To(PostToFacebook));
    builder.AddEdge(PostToFacebook, End);
    assert builder.edges == BrandingGraph.edges;
    assert builder.branches == BrandingGraph.branches;
    BrandingGraphWellFormed();
    var compiled := builder.Compile();
    if compiled.None? {
      assert false;
      return Failure(LlmNotInitialized);
    }
    return Success(compiled.value);
  }

  /**
   * The target after node n ran and its update was merged. None when the
   * router answers a name its path map lacks, or n has no outgoing edge.
   */
  function Successor(g: Graph, n: Node, s: State): Option<Target> {
    if n in g.branches then
      var key := Route(g.branches[n].router, s);
      if key in g.branches[n].paths then Some(g.branches[n].paths[key]) else None
    else if n in g.edges then Some(g.edges[n])
    else None
  }

  /** A topological numbering of the nodes, END lowest. */
  function Rank(n: Node): nat {
    match n
    case CreateBranding => 7
    case CreateVisuals => 6
    case GenerateImage => 5
    case CheckRequirements => 4
    case PauseForInput => 3
    case GeneratePost => 2
    case PostToFacebook => 1
  }

  function TargetRank(t: Target): nat {
    if t.End? then 0 else Rank(t.node)
  }

  /** Every edge lowers the rank: the graph is acyclic and every walk ends. */
  predicate Ranked(g: Graph) {
    && (forall n :: n in g.edges ==> TargetRank(g.edges[n]) < Rank(n))
    && (forall n, k :: n in g.branches && k in g.branches[n].paths ==>
          TargetRank(g.branches[n].paths[k]) < Rank(n))
  }

  lemma SuccessorLowersRank(g: Graph, n: Node, s: State)
    requires Ranked(g)
    ensures Successor(g, n, s).Some? ==> TargetRank(Successor(g, n, s).value) < Rank(n)
  {
  }

  datatype RunError = NodeRaised(error: NodeError) | NoRoute

  /**
   * How a run ends: at END with the final state and the nodes that ran, or
   * with the exception that ended it, the node it came from, the state at
   * that point and the nodes that had completed.
   */
  datatype RunOutcome =
    | Completed(state: State, trace: seq<Node>)
    | Failed(state: State, trace: seq<Node>, at: Node, error: RunError)

  /** The run from target t, with `done` the nodes already completed. */
  function Walk(g: Graph, t: Target, s: State, c: Collaborators, done: seq<Node>): RunOutcome
    requires Ranked(g)
    decreases TargetRank(t)
  {
    match t
    case End => Completed(s, done)
    case To(n) =>
      match Step(n, s, c)
      case Raised(e) => Failed(s, done, n, NodeRaised(e))
      case Patch(p) =>
        var next := Merge(s, p);
        SuccessorLowersRank(g, n, next);
        match Successor(g, n, next)
        case None => Failed(next, done + [n], n, NoRoute)
        case Some(t') => Walk(g, t', next, c, done + [n])
  }

  /** The run loop: one node at a time, each update merged before routing. */
  method Run(g: Graph, init: State, c: Collaborators) returns (out: RunOutcome)
    requires Ranked(g)
    ensures out == Walk(g, To(g.entry), init, c, [])
  {
    var current := To(g.entry);
    var state := init;
    var trace: seq<Node> := [];
    while current.To?
      invariant Walk(g, current, state, c, trace) == Walk(g, To(g.entry), init, c, [])
      decreases TargetRank(current)
    {
      var n := current.node;
      var step := Step(n, state, c);
      if step.Raised? {
        return Failed(state, trace, n, NodeRaised(step.error));
      }
      state := Merge(state, step.patch);
      trace := trace + [n];
      var next := Successor(g, n, state);
      SuccessorLowersRank(g, n, state);
      if next.None? {
        return Failed(state, trace, n, NoRoute);
      }
      current := next.value;
    }
    out := Completed(state, trace);
  }

  /** Entry point, the linear prefix, the branch and the tail of the compiled graph. */
  lemma BrandingGraphEdges(s: State)
    ensures Ranked(BrandingGraph)
    ensures BrandingGraph.entry == CreateBranding
    ensures Successor(BrandingGraph, CreateBranding, s) == Some(To(CreateVisuals))
    ensures Successor(BrandingGraph, CreateVisuals, s) == Some(To(GenerateImage))
    ensures Successor(BrandingGraph, GenerateImage, s) == Some(To(CheckRequirements))
    ensures Successor(BrandingGraph, CheckRequirements, s) ==
      Some(To(if NonEmpty(s.missingInfo) then PauseForInput else GeneratePost))
    ensures Successor(BrandingGraph, PauseForInput, s) == Some(To(GeneratePost))
    ensures Successor(BrandingGraph, GeneratePost, s) == Some(To(PostToFacebook))
    ensures Successor(BrandingGraph, PostToFacebook, s) == Some(End)
  {
    BrandingGraphRanked();
    var paths := BrandingGraph.branches[CheckRequirements].paths;
    assert "generate_post" in paths && "pause_for_input" in paths;
  }

  lemma BrandingGraphRanked()
    ensures Ranked(BrandingGraph)
  {
    var paths := BrandingGraph.branches[CheckRequirements].paths;
    assert paths.Keys == {"generate_post", "pause_for_input"};
  }

  /** Running a fixed list of nodes in order, with any step function. */
  function RunSteps(ns: seq<Node>, s: State, step: (Node, State) -> Outcome, done: seq<Node>): RunOutcome
    decreases |ns|
  {
    if |ns| == 0 then Completed(s, done)
    else match step(ns[0], s)
      case Raised(e) => Failed(s, done, ns[0], NodeRaised(e))
      case Patch(p) => RunSteps(ns[1..], Merge(s, p), step, done + [ns[0]])
  }

  /** The program's nodes, with their collaborators fixed. */
  function StepWith(c: Collaborators): (Node, State) -> Outcome {
    (n: Node, s: State) => Step(n, s, c)
  }

  /** Reference definition: running a fixed list of the program's nodes in order. */
  function RunList(ns: seq<Node>, s: State, c: Collaborators, done: seq<Node>): RunOutcome {
    RunSteps(ns, s, StepWith(c), done)
  }

  /** The nodes before the branch, and the two ways on from it. */
  const Prefix: seq<Node> := [CreateBranding, CreateVisuals, GenerateImage, CheckRequirements]
  const Direct: seq<Node> := Prefix + [GeneratePost, PostToFacebook]
  const ViaPause: seq<Node> := Prefix + [PauseForInput, GeneratePost, PostToFacebook]

  /** Reference definition: the pipeline the compiled graph amounts to. */
  function Pipeline(init: State, c: Collaborators): RunOutcome {
    var head := RunList(Prefix, init, c, []);
    if head.Failed? then head
    else if NonEmpty(head.state.missingInfo) then
      RunList([PauseForInput, GeneratePost, PostToFacebook], head.state, c, head.trace)
    else
      RunList([GeneratePost, PostToFacebook], head.state, c, head.trace)
  }

  /**
   * How a run of `ns` after `done` may end: having completed the whole
   * list, or raised at the node just after those it completed, which all
   * lie at the head of the list.
   */
  predicate TraceShape(out: RunOutcome, ns: seq<Node>, done: seq<Node>) {
    && (out.Completed? ==> out.trace == done + ns)
    && (out.Failed? ==>
          |done| <= |out.trace| < |done| + |ns| &&
          out.trace == done + ns[..|out.trace| - |done|] &&
          out.at == ns[|out.trace| - |done|] &&
          out.error.NodeRaised?)
  }

  /** Completing the head node first keeps the shape of the rest of the run. */
  lemma TraceShapeCons(out: RunOutcome, ns: seq<Node>, done: seq<Node>)
    requires |ns| > 0 && TraceShape(out, ns[1..], done + [ns[0]])
    ensures TraceShape(out, ns, done)
  {
    var done' := done + [ns[0]];
    assert done' + ns[1..] == done + ns;
    if out.Failed? {
      var k := |out.trace| - |done'|;
      assert done' + ns[1..][..k] == done + ns[..k + 1];
      assert ns[1..][k] == ns[k + 1];
    }
  }

  /** Every run of a node list has that shape. */
  lemma {:induction false} RunStepsTrace(ns: seq<Node>, s: State, step: (Node, State) -> Outcome, done: seq<Node>)
    ensures TraceShape(RunSteps(ns, s, step, done), ns, done)
    decreases |ns|
  {
    if |ns| > 0 {
      var r := step(ns[0], s);
      if r.Raised? {
        assert done + ns[..0] == done;
      } else {
        RunStepsTrace(ns[1..], Merge(s, r.patch), step, done + [ns[0]]);
        TraceShapeCons(RunSteps(ns, s, step, done), ns, done);
      }
    }
  }

  /** A key no node of the list writes keeps its value through the run. */
  lemma {:induction false} RunListPreserves(ns: seq<Node>, s: State, c: Collaborators, done: seq<Node>, f: Field)
    requires forall i :: 0 <= i < |ns| ==> f !in OutputKeys(ns[i])
    ensures Get(RunList(ns, s, c, done).state, f) == Get(s, f)
    decreases |ns|
  {
    if |ns| > 0 {
      match Step(ns[0], s, c)
      case Raised(e) =>
      case Patch(p) =>
        StepChangesOnlyItsKey(ns[0], s, c);
        RunListPreserves(ns[1..], Merge(s, p), c, done + [ns[0]], f);
    }
  }

  /** The pipeline's second half: the branch taken once the prefix has completed. */
  function AfterBranch(head: RunOutcome, c: Collaborators): RunOutcome {
    if head.Failed? then head
    else if NonEmpty(head.state.missingInfo) then
      RunList([PauseForInput, GeneratePost, PostToFacebook], head.state, c, head.trace)
    else
      RunList([GeneratePost, PostToFacebook], head.state, c, head.trace)
  }

  /** From `pause_for_input` on, the compiled graph runs the pause and then the tail. */
  lemma PauseTailIsRunList(s: State, c: Collaborators, done: seq<Node>)
    ensures Ranked(BrandingGraph)
    ensures Walk(BrandingGraph, To(PauseForInput), s, c, done) ==
      RunList([PauseForInput, GeneratePost, PostToFacebook], s, c, done)
  {
    BrandingGraphEdges(s);
    var s' := Merge(s, Step(PauseForInput, s, c).patch);
    BrandingGraphEdges(s');
    TailIsRunList(s', c, done + [PauseForInput]);
    assert [PauseForInput, GeneratePost, PostToFacebook][1..] == [GeneratePost, PostToFacebook];
  }

  /**
   * Walked from the i-th node of the prefix, the compiled graph runs the
   * rest of the prefix and then the branch.
   */
  lemma {:induction false} WalkFromPrefix(i: nat, s: State, c: Collaborators, done: seq<Node>)
    requires i < |Prefix|
    ensures Ranked(BrandingGraph)
    ensures Walk(BrandingGraph, To(Prefix[i]), s, c, done) == AfterBranch(RunList(Prefix[i..], s, c, done), c)
    decreases |Prefix| - i
  {
    if i + 1 == |Prefix| {
      WalkFromCheck(s, c, done);
      assert Prefix[i..] == [CheckRequirements];
    } else {
      BrandingGraphRanked();
      var n := Prefix[i];
      var r := Step(n, s, c);
      if r.Patch? {
        var next := Merge(s, r.patch);
        PrefixSuccessor(i, next);
        assert Prefix[i..][1..] == Prefix[i + 1..];
        WalkFromPrefix(i + 1, next, c, done + [n]);
      }
    }
  }

  /** Inside the prefix, each node's fixed edge leads to the next one. */
  lemma PrefixSuccessor(i: nat, s: State)
    requires i + 1 < |Prefix|
    ensures Successor(BrandingGraph, Prefix[i], s) == Some(To(Prefix[i + 1]))
  {
    BrandingGraphEdges(s);
  }

  /** Walked from `check_requirements`, the compiled graph runs it and then the branch. */
  lemma WalkFromCheck(s: State, c: Collaborators, done: seq<Node>)
    ensures Ranked(BrandingGraph)
    ensures Walk(BrandingGraph, To(CheckRequirements), s, c, done) ==
      AfterBranch(RunList([CheckRequirements], s, c, done), c)
  {
    BrandingGraphEdges(s);
    var next := Merge(s, Step(CheckRequirements, s, c).patch);
    BrandingGraphEdges(next);
    if NonEmpty(next.missingInfo) {
      PauseTailIsRunList(next, c, done + [CheckRequirements]);
    } else {
      TailIsRunList(next, c, done + [CheckRequirements]);
    }
  }

  /** The compiled graph, walked from its entry, is the pipeline. */
  lemma WalkIsPipeline(init: State, c: Collaborators)
    ensures Ranked(BrandingGraph)
    ensures Walk(BrandingGraph, To(BrandingGraph.entry), init, c, []) == Pipeline(init, c)
  {
    BrandingGraphEdges(init);
    WalkFromPrefix(0, init, c, []);
  }

  /** From `generate_post` on, the compiled graph runs generate_post then post_to_facebook. */
  lemma TailIsRunList(s: State, c: Collaborators, done: seq<Node>)
    ensures Ranked(BrandingGraph)
    ensures Walk(BrandingGraph, To(GeneratePost), s, c, done) == RunList([GeneratePost, PostToFacebook], s, c, done)
  {
    BrandingGraphEdges(s);
    var r := Step(GeneratePost, s, c);
    if r.Patch? {
      var s' := Merge(s, r.patch);
      BrandingGraphEdges(s');
      var r' := Step(PostToFacebook, s', c);
      if r'.Patch? {
        BrandingGraphEdges(Merge(s', r'.patch));
      }
    }
  }

  /** The first four nodes complete: the keys they subscript are present and both model calls answer. */
  predicate PrefixCompletes(init: State, c: Collaborators) {
    && init.userInput.Some?
    && c.branding(init.userInput.value).Some?
    && c.visuals(c.branding(init.userInput.value).value).Some?
    && init.clientId.Some?
  }

  /** The state once check_requirements has run. */
  function AfterPrefix(init: State, c: Collaborators): State
    requires PrefixCompletes(init, c)
  {
    var branding := c.branding(init.userInput.value);
    init.(brandSuggestions := branding,
          visualPrompts := c.visuals(branding.value),
          imagePath := Some(ImagePathFor(init.clientId.value)),
          missingInfo := Some(MissingDetails(init)))
  }

  predicate DetailsPresent(s: State) {
    s.location.Some? && s.price.Some? && s.bedrooms.Some? && s.features.Some?
  }

  /** The prompt values generate_post sends, in terms of the initial state. */
  function InitialPrompt(init: State, c: Collaborators): PostPrompt
    requires PrefixCompletes(init, c) && DetailsPresent(init)
  {
    PostPrompt(init.location.value, init.price.value, init.bedrooms.value,
               Join(", ", init.features.value), c.branding(init.userInput.value).value)
  }

  /** The whole run completes: the prefix does, every detail key is present and the post call answers. */
  predicate RunCompletes(init: State, c: Collaborators) {
    PrefixCompletes(init, c) && DetailsPresent(init) && c.post(InitialPrompt(init, c)).Some?
  }

  /** The final state of a completed run. */
  function FinalState(init: State, c: Collaborators): State
    requires RunCompletes(init, c)
  {
    var post := c.post(InitialPrompt(init, c));
    AfterPrefix(init, c).(basePost := post,
      postResult := Some(ImagePublisher.PostToFacebook(c.publisher, post.value, ImagePathFor(init.clientId.value))))
  }

  /** The first four nodes: they complete exactly when PrefixCompletes, or stop before the end. */
  lemma PrefixRun(init: State, c: Collaborators)
    ensures var head := RunList(Prefix, init, c, []);
      (head.Completed? <==> PrefixCompletes(init, c)) &&
      (head.Completed? ==> head.trace == Prefix && head.state == AfterPrefix(init, c)) &&
      (head.Failed? ==> head.trace < Prefix && head.error.NodeRaised?)
  {
    RunStepsTrace(Prefix, init, StepWith(c), []);
    var head := RunList(Prefix, init, c, []);
    if head.Failed? {
      var k := |head.trace|;
      assert head.trace == [] + Prefix[..k];
      assert head.trace == Prefix[..k];
    }
    PrefixStates(init, c);
  }

  /** The state the first four nodes leave, when they complete. */
  lemma PrefixStates(init: State, c: Collaborators)
    ensures var head := RunList(Prefix, init, c, []);
      (head.Completed? <==> PrefixCompletes(init, c)) &&
      (head.Completed? ==> head.state == AfterPrefix(init, c))
  {
    var r1 := Step(CreateBranding, init, c);
    if r1.Patch? {
      var s1 := Merge(init, r1.patch);
      assert s1 == init.(brandSuggestions := c.branding(init.userInput.value));
      assert Prefix[1..] == [CreateVisuals, GenerateImage, CheckRequirements];
      PrefixFromVisuals(init, c, s1);
    }
  }

  /** create_visuals, generate_image and check_requirements, from the state create_branding leaves. */
  lemma PrefixFromVisuals(init: State, c: Collaborators, s1: State)
    requires init.userInput.Some? && c.branding(init.userInput.value).Some?
    requires s1 == init.(brandSuggestions := c.branding(init.userInput.value))
    ensures var head := RunList([CreateVisuals, GenerateImage, CheckRequirements], s1, c, [CreateBranding]);
      (head.Completed? <==> PrefixCompletes(init, c)) &&
      (head.Completed? ==> head.state == AfterPrefix(init, c))
  {
    var r2 := Step(CreateVisuals, s1, c);
    if r2.Patch? {
      var s2 := Merge(s1, r2.patch);
      assert s2 == s1.(visualPrompts := c.visuals(s1.brandSuggestions.value));
      assert [CreateVisuals, GenerateImage, CheckRequirements][1..] == [GenerateImage, CheckRequirements];
      PrefixFromImage(init, c, s2);
    }
  }

  /** generate_image and check_requirements, from the state create_visuals leaves. */
  lemma PrefixFromImage(init: State, c: Collaborators, s2: State)
    requires init.userInput.Some? && c.branding(init.userInput.value).Some?
    requires c.visuals(c.branding(init.userInput.value).value).Some?
    requires s2 == init.(brandSuggestions := c.branding(init.userInput.value),
                         visualPrompts := c.visuals(c.branding(init.userInput.value).value))
    ensures var head := RunList([GenerateImage, CheckRequirements], s2, c, [CreateBranding, CreateVisuals]);
      (head.Completed? <==> PrefixCompletes(init, c)) &&
      (head.Completed? ==> head.state == AfterPrefix(init, c))
  {
    var r3 := Step(GenerateImage, s2, c);
    if r3.Patch? {
      var s3 := Merge(s2, r3.patch);
      assert s3 == s2.(imagePath := Some(ImagePathFor(init.clientId.value)));
      var s4 := Merge(s3, Step(CheckRequirements, s3, c).patch);
      assert MissingDetails(s3) == MissingDetails(init);
      assert s4 == s3.(missingInfo := Some(MissingDetails(init)));
      assert [GenerateImage, CheckRequirements][1..] == [CheckRequirements];
    }
  }

  /** generate_post then post_to_facebook, from the state check_requirements leaves. */
  lemma {:induction false} TailRun(init: State, c: Collaborators, s: State, done: seq<Node>)
    requires PrefixCompletes(init, c) && s == AfterPrefix(init, c)
    ensures var out := RunList([GeneratePost, PostToFacebook], s, c, done);
      (out.Completed? <==> RunCompletes(init, c)) &&
      (out.Completed? ==> out.state == FinalState(init, c) && out.trace == done + [GeneratePost, PostToFacebook]) &&
      (out.Failed? ==> out.error.NodeRaised? && out.at == GeneratePost && out.trace == done && out.state == s)
  {
    var out := RunList([GeneratePost, PostToFacebook], s, c, done);
    var r := Step(GeneratePost, s, c);
    if r.Patch? {
      assert PromptOf(s) == InitialPrompt(init, c);
      var s' := Merge(s, r.patch);
      var r' := Step(PostToFacebook, s', c);
      assert r'.Patch?;
      assert Merge(s', r'.patch) == FinalState(init, c);
      assert [GeneratePost, PostToFacebook][1..][1..] == [];
      assert out == Completed(FinalState(init, c), done + [GeneratePost] + [PostToFacebook]);
    } else {
      assert HasPostInputs(s) <==> DetailsPresent(init);
      assert HasPostInputs(s) ==> PromptOf(s) == InitialPrompt(init, c);
    }
  }

  /** `pause_for_input` changes nothing: running it first only lengthens the trace. */
  lemma PauseIsEmptyStep(s: State, c: Collaborators, done: seq<Node>)
    ensures RunList([PauseForInput, GeneratePost, PostToFacebook], s, c, done)
         == RunList([GeneratePost, PostToFacebook], s, c, done + [PauseForInput])
  {
    assert Merge(s, Step(PauseForInput, s, c).patch) == s;
    assert [PauseForInput, GeneratePost, PostToFacebook][1..] == [GeneratePost, PostToFacebook];
  }

  /** The pipeline's outcome, stated as BrandingRun states it for the graph. */
  predicate PipelineOutcome(init: State, c: Collaborators, out: RunOutcome) {
    && (out.Completed? <==> RunCompletes(init, c))
    && (out.Completed? ==> out.state == FinalState(init, c))
    && (out.Completed? ==> out.trace == if MissingDetails(init) == [] then Direct else ViaPause)
    && (out.Failed? ==> out.error.NodeRaised? && (out.trace < Direct || out.trace < ViaPause))
  }

  lemma PausedTail(init: State, c: Collaborators)
    requires PrefixCompletes(init, c) && MissingDetails(init) != []
    ensures PipelineOutcome(init, c,
      RunList([PauseForInput, GeneratePost, PostToFacebook], AfterPrefix(init, c), c, Prefix))
  {
    var s := AfterPrefix(init, c);
    PauseIsEmptyStep(s, c, Prefix);
    TailRun(init, c, s, Prefix + [PauseForInput]);
    assert Prefix + [PauseForInput] + [GeneratePost, PostToFacebook] == ViaPause;
    assert Prefix + [PauseForInput] < ViaPause;
  }

  lemma DirectTail(init: State, c: Collaborators)
    requires PrefixCompletes(init, c) && MissingDetails(init) == []
    ensures PipelineOutcome(init, c, RunList([GeneratePost, PostToFacebook], AfterPrefix(init, c), c, Prefix))
  {
    TailRun(init, c, AfterPrefix(init, c), Prefix);
    assert Prefix + [GeneratePost, PostToFacebook] == Direct;
    assert Prefix < Direct;
  }

  lemma PipelineRun(init: State, c: Collaborators)
    ensures PipelineOutcome(init, c, Pipeline(init, c))
  {
    PrefixRun(init, c);
    var head := RunList(Prefix, init, c, []);
    if head.Completed? {
      assert head.state == AfterPrefix(init, c);
      if MissingDetails(init) != [] {
        PausedTail(init, c);
      } else {
        DirectTail(init, c);
      }
    } else {
      assert Prefix < Direct;
    }
  }

  /**
   * A run of the compiled graph: it completes exactly when RunCompletes, with
   * the final state FinalState, having gone through `pause_for_input` exactly
   * when a detail was missing or empty; otherwise a node raised and the nodes
   * that completed are a proper prefix of one of the two ways through.
   */
  lemma BrandingRun(init: State, c: Collaborators)
    ensures Ranked(BrandingGraph)
    ensures var out := Walk(BrandingGraph, To(BrandingGraph.entry), init, c, []);
      (out.Completed? <==> RunCompletes(init, c)) &&
      (out.Completed? ==> out.state == FinalState(init, c)) &&
      (out.Completed? ==> out.trace == if MissingDetails(init) == [] then Direct else ViaPause) &&
      (out.Failed? ==> out.error.NodeRaised? && (out.trace < Direct || out.trace < ViaPause))
  {
    WalkIsPipeline(init, c);
    PipelineRun(init, c);
  }

  /** The first of the four detail keys that is absent. */
  function FirstAbsent(s: State): Field
    requires !DetailsPresent(s)
  {
    if s.location.None? then Location
    else if s.price.None? then Price
    else if s.bedrooms.None? then Bedrooms
    else Features
  }

  /**
   * The pause does not stop a run: with a detail key absent, the run goes
   * through `pause_for_input` on to `generate_post`, which raises KeyError
   * for the first absent key, and nothing is published.
   */
  lemma AbsentDetailFailsAtGeneratePost(init: State, c: Collaborators)
    requires PrefixCompletes(init, c) && !DetailsPresent(init)
    ensures Ranked(BrandingGraph)
    ensures Walk(BrandingGraph, To(BrandingGraph.entry), init, c, []) ==
      Failed(AfterPrefix(init, c), Prefix + [PauseForInput], GeneratePost, NodeRaised(KeyError(FirstAbsent(init))))
  {
    WalkIsPipeline(init, c);
    PrefixRun(init, c);
    var s := AfterPrefix(init, c);
    MissingDetailsEmptyIff(init);
    assert NonEmpty(s.missingInfo);
    PauseIsEmptyStep(s, c, Prefix);
    TailRaisesFirstAbsent(init, c, Prefix + [PauseForInput]);
  }

  /** From the state check_requirements leaves, generate_post raises for the first absent detail. */
  lemma TailRaisesFirstAbsent(init: State, c: Collaborators, done: seq<Node>)
    requires PrefixCompletes(init, c) && !DetailsPresent(init)
    ensures RunList([GeneratePost, PostToFacebook], AfterPrefix(init, c), c, done) ==
      Failed(AfterPrefix(init, c), done, GeneratePost, NodeRaised(KeyError(FirstAbsent(init))))
  {
    var s := AfterPrefix(init, c);
    assert s.location == init.location && s.price == init.price;
    assert s.bedrooms == init.bedrooms && s.features == init.features;
    assert Step(GeneratePost, s, c) == Raised(KeyError(FirstAbsent(init)));
  }
}
