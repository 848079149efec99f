/** The context graph: nodes, subgraphs, edges, task bindings and projections, and every mutation of them
    as a function. Lists the store keeps sorted and free of duplicates are sets here. A refused request
    leaves the graph as it was.
 */
module ContextGraph {
  import opened ContextProjection

  type ProjectId = string
  type TaskId = string

  /** Node ids: the three the store generates from its sequence number, and every other text. */
  datatype NodeId = NodeSeq(n: nat) | ReviewSeq(n: nat) | TaskSeq(n: nat) | Named(name: string)

  /** Subgraph ids: the generated general ones, and every other text. */
  datatype SubgraphId = GeneralSeq(n: nat) | NamedSubgraph(name: string)

  datatype SubgraphKind = General | Task

  datatype Node = Node(
    id: NodeId, kind: string, statement: string, status: string,
    subgraphs: set<SubgraphId>, sources: set<string>, creator: string)

  datatype NodeRecord = NodeRecord(node: Node, revision: int, project: ProjectId, sequence: nat)

  datatype SubgraphRecord = SubgraphRecord(
    name: string, summary: string, revision: int, kind: SubgraphKind, project: ProjectId, task: TaskId)

  datatype Origin = FromNode(node: NodeId) | FromSubgraph(subgraph: SubgraphId)
  datatype Edge = Edge(origin: Origin, to: NodeId, kind: string)

  datatype TaskKey = TaskKey(project: ProjectId, task: TaskId)
  datatype ProjectionKey = ProjectionKey(project: ProjectId, projection: string)

  datatype Graph = Graph(
    revision: int,
    nextSeq: nat,
    nodes: map<NodeId, NodeRecord>,
    subgraphs: map<SubgraphId, SubgraphRecord>,
    edges: set<Edge>,
    bindings: map<TaskKey, SubgraphId>,
    projections: map<ProjectionKey, NodeId>)

  const EMPTY := Graph(1, 0, map[], map[], {}, map[], map[])

  datatype Principal = Principal(project: ProjectId, task: TaskId, actor: string, invocation: string)

  datatype Outcome<+T> = Done(value: T) | Refused

  // ---------------------------------------------------------------------------------------
  // Visibility and validation
  // ---------------------------------------------------------------------------------------

  predicate CanSeeSubgraph(pr: Principal, g: SubgraphRecord) {
    && pr.project == g.project
    && (g.kind == General || (pr.task != "" && g.task == pr.task))
  }

  predicate CanSeeNode(pr: Principal, subgraphs: map<SubgraphId, SubgraphRecord>, r: NodeRecord) {
    && pr.project == r.project
    && (r.node.subgraphs == {} || exists g <- r.node.subgraphs :: g in subgraphs && CanSeeSubgraph(pr, subgraphs[g]))
  }

  predicate ValidKind(kind: string) {
    kind == "directive" || kind == "fact" || kind == "hypothesis"
  }

  predicate ValidStatus(status: string) {
    status == "accepted" || status == "disputed" || status == "superseded" || status == "outdated"
  }

  /** The set a list of ids is normalised to: no duplicates, no empty id. */
  function UniqueSubgraphs(ids: seq<SubgraphId>): set<SubgraphId> {
    (set g | g in ids) - {NamedSubgraph("")}
  }

  function UniqueTexts(texts: seq<string>): set<string> {
    (set t | t in texts) - {""}
  }

  /** A node the Context Agent may write: complete, and a member of visible general subgraphs only. */
  predicate Admissible(d: Graph, pr: Principal, n: Node, creator: string) {
    && n.id != Named("") && n.statement != "" && n.creator != ""
    && (n.creator == creator || creator == "")
    && ValidKind(n.kind) && ValidStatus(n.status) && n.sources != {}
    && forall g <- n.subgraphs ::
         g in d.subgraphs && CanSeeSubgraph(pr, d.subgraphs[g]) && d.subgraphs[g].kind == General
  }

  predicate HasTaskMembership(subgraphs: map<SubgraphId, SubgraphRecord>, ids: set<SubgraphId>) {
    exists g <- ids :: g in subgraphs && subgraphs[g].kind == Task
  }

  /** Concrete revisions start at 1; 0 asks for the latest and never matches. */
  predicate RevisionMatches(expected: int, actual: int) {
    expected > 0 && expected == actual
  }

  // ---------------------------------------------------------------------------------------
  // Mutations
  // ---------------------------------------------------------------------------------------

  function Bump(subgraphs: map<SubgraphId, SubgraphRecord>, ids: set<SubgraphId>): map<SubgraphId, SubgraphRecord> {
    map g | g in subgraphs :: if g in ids then subgraphs[g].(revision := subgraphs[g].revision + 1) else subgraphs[g]
  }

  /** Stores a node under its id and counts the change in each of its subgraphs. */
  function Put(d: Graph, r: NodeRecord): Graph {
    d.(nodes := d.nodes[r.node.id := r], subgraphs := Bump(d.subgraphs, r.node.subgraphs))
  }

  datatype NodeRequest = NodeRequest(
    kind: string, statement: string, status: string, subgraphs: seq<SubgraphId>, sources: seq<string>)

  function NewNode(d: Graph, pr: Principal, q: NodeRequest): Node {
    Node(NodeSeq(d.nextSeq + 1), q.kind, q.statement, "accepted",
         UniqueSubgraphs(q.subgraphs), UniqueTexts(q.sources), pr.actor)
  }

  function CreateNode(d: Graph, pr: Principal, q: NodeRequest): Outcome<Graph> {
    var n := NewNode(d, pr, q);
    if !Admissible(d, pr, n, n.creator) then Refused
    else Done(Put(d, NodeRecord(n, 1, pr.project, d.nextSeq + 1)).(
              nextSeq := d.nextSeq + 1, revision := d.revision + 1))
  }

  /** The node exists in the caller's project, belongs to no task, and is at the revision the caller saw. */
  predicate Editable(d: Graph, pr: Principal, id: NodeId, expected: int) {
    && id in d.nodes && d.nodes[id].project == pr.project
    && !HasTaskMembership(d.subgraphs, d.nodes[id].node.subgraphs)
    && RevisionMatches(expected, d.nodes[id].revision)
  }

  function UpdatedNode(d: Graph, id: NodeId, q: NodeRequest): Node
    requires id in d.nodes
  {
    Node(d.nodes[id].node.id, q.kind, q.statement, q.status,
         UniqueSubgraphs(q.subgraphs), UniqueTexts(q.sources), d.nodes[id].node.creator)
  }

  function Changed<T>(a: set<T>, b: set<T>): set<T> {
    (a - b) + (b - a)
  }

  function Replace(d: Graph, r: NodeRecord, touched: set<SubgraphId>): Graph {
    d.(nodes := d.nodes[r.node.id := r], subgraphs := Bump(d.subgraphs, touched), revision := d.revision + 1)
  }

  function UpdateNode(d: Graph, pr: Principal, id: NodeId, expected: int, q: NodeRequest): Outcome<Graph> {
    if !Editable(d, pr, id, expected) then Refused
    else
      var r := d.nodes[id];
      var n := UpdatedNode(d, id, q);
      if !Admissible(d, pr, n, r.node.creator) then Refused
      else Done(Replace(d, r.(node := n, revision := r.revision + 1), Changed(r.node.subgraphs, n.subgraphs)))
  }

  function DeleteNode(d: Graph, pr: Principal, id: NodeId, expected: int): Outcome<Graph> {
    if !Editable(d, pr, id, expected) then Refused
    else Done(d.(nodes := d.nodes - {id},
                 edges := (set e | e in d.edges && e.to != id && e.origin != FromNode(id)),
                 subgraphs := Bump(d.subgraphs, d.nodes[id].node.subgraphs),
                 revision := d.revision + 1))
  }

  /** Makes exactly the wanted nodes of the project members of the subgraph. */
  function SetMembers(nodes: map<NodeId, NodeRecord>, project: ProjectId, g: SubgraphId, wanted: set<NodeId>)
    : map<NodeId, NodeRecord>
  {
    map id | id in nodes ::
      if nodes[id].project != project then nodes[id]
      else if id in wanted
      then nodes[id].(node := nodes[id].node.(subgraphs := nodes[id].node.subgraphs + {g}))
      else nodes[id].(node := nodes[id].node.(subgraphs := nodes[id].node.subgraphs - {g}))
  }

  function UniqueNodes(ids: seq<NodeId>): set<NodeId> {
    (set x | x in ids) - {Named("")}
  }

  predicate MembersAllowed(d: Graph, pr: Principal, wanted: set<NodeId>) {
    forall id <- wanted ::
      && id in d.nodes && d.nodes[id].project == pr.project
      && !HasTaskMembership(d.subgraphs, d.nodes[id].node.subgraphs)
  }

  function TakenFrom(subgraphs: map<SubgraphId, SubgraphRecord>, i: nat): set<SubgraphId> {
    set g | g in subgraphs && g.GeneralSeq? && g.n >= i
  }

  /** The first free generated id at or after i; the search ends because only finitely many are taken. */
  function FirstFree(subgraphs: map<SubgraphId, SubgraphRecord>, i: nat): (g: SubgraphId)
    ensures g.GeneralSeq? && g.n >= i && g !in subgraphs
    ensures forall k | i <= k < g.n :: GeneralSeq(k) in subgraphs
    decreases |TakenFrom(subgraphs, i)|
  {
    if GeneralSeq(i) !in subgraphs then GeneralSeq(i)
    else
      assert TakenFrom(subgraphs, i) == TakenFrom(subgraphs, i + 1) + {GeneralSeq(i)};
      FirstFree(subgraphs, i + 1)
  }

  function CreateSubgraph(d: Graph, pr: Principal, name: string, summary: string, members: seq<NodeId>): Outcome<Graph>
  {
    var g := FirstFree(d.subgraphs, |d.subgraphs| + 1);
    var w := UniqueNodes(members);
    if name == "" || !MembersAllowed(d, pr, w) then Refused
    else Done(d.(subgraphs := d.subgraphs[g := SubgraphRecord(name, summary, 1, General, pr.project, "")],
                 nodes := SetMembers(d.nodes, pr.project, g, w),
                 revision := d.revision + 1))
  }

  /** A general subgraph of the caller's project at the revision the caller saw. */
  predicate SubgraphEditable(d: Graph, pr: Principal, g: SubgraphId, expected: int) {
    && g in d.subgraphs && d.subgraphs[g].project == pr.project && d.subgraphs[g].kind == General
    && RevisionMatches(expected, d.subgraphs[g].revision)
  }

  function UpdateSubgraph(d: Graph, pr: Principal, g: SubgraphId, expected: int, name: string, summary: string,
                          members: seq<NodeId>): Outcome<Graph>
  {
    var w := UniqueNodes(members);
    if !SubgraphEditable(d, pr, g, expected) || !MembersAllowed(d, pr, w) then Refused
    else
      var r := d.subgraphs[g];
      Done(d.(subgraphs := d.subgraphs[g := r.(name := name, summary := summary, revision := r.revision + 1)],
              nodes := SetMembers(d.nodes, pr.project, g, w),
              revision := d.revision + 1))
  }

  function DropMembership(nodes: map<NodeId, NodeRecord>, g: SubgraphId): map<NodeId, NodeRecord> {
    map id | id in nodes :: nodes[id].(node := nodes[id].node.(subgraphs := nodes[id].node.subgraphs - {g}))
  }

  function DeleteSubgraph(d: Graph, pr: Principal, g: SubgraphId, expected: int): Outcome<Graph> {
    if !SubgraphEditable(d, pr, g, expected) then Refused
    else Done(d.(subgraphs := d.subgraphs - {g},
                 nodes := DropMembership(d.nodes, g),
                 edges := (set e | e in d.edges && e.origin != FromSubgraph(g)),
                 revision := d.revision + 1))
  }

  /** One node of a trusted batch, with the context it was created in. */
  datatype NodeInput = NodeInput(node: Node, creator: string, previous: NodeId, subscribed: set<SubgraphId>)

  predicate LinksPrevious(d: Graph, pr: Principal, i: NodeInput) {
    && i.previous != Named("") && i.previous in d.nodes
    && var p := d.nodes[i.previous];
       && p.project == pr.project && CanSeeNode(pr, d.subgraphs, p) && p.node.creator == i.creator
       && p.node.status != "superseded" && p.node.status != "outdated"
  }

  /** Edges from the subgraphs the principal sees. */
  function SubgraphEdges(d: Graph, pr: Principal, ids: set<SubgraphId>, to: NodeId): set<Edge> {
    set g | g in ids && g in d.subgraphs && CanSeeSubgraph(pr, d.subgraphs[g]) ::
      Edge(FromSubgraph(g), to, "derives_from_subgraph")
  }

  /** The edges a node's creation context gives it. */
  function CreationEdges(d: Graph, pr: Principal, i: NodeInput): set<Edge> {
    (if LinksPrevious(d, pr, i) then {Edge(FromNode(i.previous), i.node.id, "logical_adjacent")} else {})
    + SubgraphEdges(d, pr, i.subscribed, i.node.id)
  }

  function AddInput(d: Graph, pr: Principal, i: NodeInput): Outcome<Graph> {
    if !Admissible(d, pr, i.node, i.creator) || i.node.id in d.nodes then Refused
    else
      var d' := Put(d, NodeRecord(i.node, 1, pr.project, d.nextSeq + 1)).(nextSeq := d.nextSeq + 1);
      Done(d'.(edges := d'.edges + CreationEdges(d', pr, i)))
  }

  function AddInputs(d: Graph, pr: Principal, inputs: seq<NodeInput>): Outcome<Graph>
    decreases |inputs|
  {
    if inputs == [] then Done(d)
    else
      var r := AddInput(d, pr, inputs[0]);
      if r.Refused? then Refused else AddInputs(r.value, pr, inputs[1..])
  }

  function CreateNodes(d: Graph, pr: Principal, expected: int, inputs: seq<NodeInput>): Outcome<Graph> {
    if !RevisionMatches(expected, d.revision) then Refused
    else
      var r := AddInputs(d, pr, inputs);
      if r.Refused? then Refused else Done(r.value.(revision := r.value.revision + 1))
  }

  function TaskSubgraphId(p: ProjectId, t: TaskId): SubgraphId {
    NamedSubgraph(p + "-" + t + "-context")
  }

  function RegisterTaskSubgraph(d: Graph, pr: Principal, task: TaskId, taskExists: bool): Outcome<Graph> {
    var t := if task == "" then pr.task else task;
    var k := TaskKey(pr.project, t);
    if t == "" || !taskExists then Refused
    else if k in d.bindings then Done(d)
    else if TaskSubgraphId(pr.project, t) in d.subgraphs then Refused
    else Done(d.(bindings := d.bindings[k := TaskSubgraphId(pr.project, t)],
                 subgraphs := d.subgraphs[TaskSubgraphId(pr.project, t) :=
                                SubgraphRecord(t, "task context", 1, Task, pr.project, t)],
                 revision := d.revision + 1))
  }

  /** A projection request: its source revision, the recipients' tasks, and whether each is known to
      coordination. */
  datatype Projection = Projection(
    id: string, revision: string, statement: string, kind: string, sources: seq<string>,
    subgraphs: seq<SubgraphId>, recipients: seq<TaskId>, recipientsKnown: bool)

  /** The projection goes to exactly the task subgraphs bound to its recipients. */
  predicate ProjectionBound(d: Graph, pr: Principal, p: Projection) {
    && p.id != "" && p.revision != "" && p.statement != "" && ValidKind(p.kind)
    && p.sources != [] && p.subgraphs != [] && p.recipients != [] && p.recipientsKnown
    && (forall g <- UniqueSubgraphs(p.subgraphs) ::
          g in d.subgraphs && d.subgraphs[g].project == pr.project && d.subgraphs[g].kind == Task)
    && (forall t <- p.recipients ::
          t != "" && TaskKey(pr.project, t) in d.bindings
          && d.bindings[TaskKey(pr.project, t)] in UniqueSubgraphs(p.subgraphs))
    && |(set t | t in p.recipients && TaskKey(pr.project, t) in d.bindings :: d.bindings[TaskKey(pr.project, t)])|
       == |UniqueSubgraphs(p.subgraphs)|
  }

  /** What a projected node cites: the revision it was made from, and the request's own references. */
  function ProjectionRefs(p: Projection): set<string> {
    UniqueTexts([RevisionRef(p.revision)] + p.sources)
  }

  function ProjectedNode(id: NodeId, creator: string, p: Projection): Node {
    Node(id, p.kind, p.statement, "accepted", UniqueSubgraphs(p.subgraphs), ProjectionRefs(p), creator)
  }

  /** The stored projection in its newer version. */
  function Reprojected(d: Graph, r: NodeRecord, p: Projection): Graph {
    var n := ProjectedNode(r.node.id, r.node.creator, p);
    Replace(d, r.(node := n, revision := r.revision + 1), Changed(r.node.subgraphs, n.subgraphs))
  }

  function ProjectTaskContext(d: Graph, pr: Principal, p: Projection): Outcome<Graph> {
    var k := ProjectionKey(pr.project, p.id);
    if !ProjectionBound(d, pr, p) then Refused
    else if k in d.projections then
      if d.projections[k] !in d.nodes || d.nodes[d.projections[k]].project != pr.project then Refused
      else
        var r := d.nodes[d.projections[k]];
        match FreshnessOf(p.revision, r.node.sources)
        case StaleOrUnreadable => Refused
        case Same => Done(d)
        case Newer => Done(Reprojected(d, r, p))
    else
      var n := ProjectedNode(TaskSeq(d.nextSeq + 1), pr.actor, p);
      Done(Put(d, NodeRecord(n, 1, pr.project, d.nextSeq + 1)).(
           nextSeq := d.nextSeq + 1, projections := d.projections[k := n.id], revision := d.revision + 1))
  }

  // ---------------------------------------------------------------------------------------
  // Review decisions, as far as they touch the graph
  // ---------------------------------------------------------------------------------------

  datatype ReviewAction = Create | Revise | Supersede | Dispute | Reject | UnknownAction

  datatype Decision = Decision(
    candidate: string, action: ReviewAction, statement: string, kind: string,
    subgraphs: seq<SubgraphId>, target: NodeId)

  /** Checked against the graph as it is before any decision of the batch is applied. */
  predicate DecisionValid(d: Graph, pr: Principal, x: Decision) {
    x.action == Reject ||
    (&& x.action != UnknownAction && ValidKind(x.kind)
     && (forall g <- x.subgraphs ::
           g in d.subgraphs && CanSeeSubgraph(pr, d.subgraphs[g]) && d.subgraphs[g].kind == General)
     && (x.action != Create ==>
           && x.target != Named("") && x.target in d.nodes && d.nodes[x.target].project == pr.project
           && CanSeeNode(pr, d.subgraphs, d.nodes[x.target])
           && !HasTaskMembership(d.subgraphs, d.nodes[x.target].node.subgraphs)))
  }

  function ReviewStatus(a: ReviewAction): string {
    if a == Dispute then "disputed" else "accepted"
  }

  function TargetStatus(a: ReviewAction): string {
    match a
    case Supersede => "superseded"
    case Dispute => "disputed"
    case _ => "outdated"
  }

  function ReviewedNode(d: Graph, pr: Principal, x: Decision, sources: seq<string>): Node {
    Node(ReviewSeq(d.nextSeq + 1), x.kind, x.statement, ReviewStatus(x.action),
         UniqueSubgraphs(x.subgraphs), UniqueTexts(sources) + {"candidate:" + x.candidate}, pr.actor)
  }

  /** Marks the node a decision is about. */
  function MarkTarget(d: Graph, pr: Principal, x: Decision): Graph {
    if x.target != Named("") && x.target in d.nodes && d.nodes[x.target].project == pr.project then
      var r := d.nodes[x.target];
      d.(nodes := d.nodes[x.target := r.(node := r.node.(status := TargetStatus(x.action)),
                                         revision := r.revision + 1)])
    else d
  }

  function ApplyDecision(d: Graph, pr: Principal, x: Decision, sources: seq<string>): Graph {
    if x.action == Reject then d
    else
      var n := ReviewedNode(d, pr, x, sources);
      MarkTarget(Put(d, NodeRecord(n, 1, pr.project, d.nextSeq + 1)).(nextSeq := d.nextSeq + 1), pr, x)
  }

  function ApplyDecisions(d: Graph, pr: Principal, xs: seq<Decision>, sources: seq<seq<string>>): Graph
    requires |xs| == |sources|
    decreases |xs|
  {
    if xs == [] then d
    else ApplyDecisions(ApplyDecision(d, pr, xs[0], sources[0]), pr, xs[1..], sources[1..])
  }

  function ReviewBatch(d: Graph, pr: Principal, xs: seq<Decision>, sources: seq<seq<string>>): Outcome<Graph>
    requires |xs| == |sources|
  {
    if exists x <- xs :: !DecisionValid(d, pr, x) then Refused
    else
      var d' := ApplyDecisions(d, pr, xs, sources);
      Done(d'.(revision := d'.revision + 1))
  }
}
