/** What the mutations of the context graph accept and what they write, in terms of the request and the stored records.
    The first part is what every stored node has in common, over all runs; the rest goes mutation by mutation.
 */
module ContextRules {
  import opened Common
  import opened ContextProjection
  import opened ContextGraph
  import opened ContextGraphRuns
  import opened ContextReview

  // ---------------------------------------------------------------------------------------
  // Every stored node is complete
  // ---------------------------------------------------------------------------------------

  const KINDS := {"directive", "fact", "hypothesis"}
  const STATUSES := {"accepted", "disputed", "superseded", "outdated"}

  /** A node of a known kind, in a known status, that cites something. */
  predicate Complete(n: Node) {
    n.kind in KINDS && n.status in STATUSES && n.sources != {}
  }

  predicate AllComplete(nodes: map<NodeId, NodeRecord>) {
    forall id <- nodes :: Complete(nodes[id].node)
  }

  lemma KindIs(kind: string)
    ensures ValidKind(kind) <==> kind in KINDS
  {
  }

  lemma StatusIs(status: string)
    ensures ValidStatus(status) <==> status in STATUSES
  {
  }

  lemma AdmissibleIsComplete(d: Graph, pr: Principal, n: Node, creator: string)
    requires Admissible(d, pr, n, creator)
    ensures Complete(n)
  {
    KindIs(n.kind);
    StatusIs(n.status);
  }

  lemma MembersKeepComplete(nodes: map<NodeId, NodeRecord>, project: ProjectId, g: SubgraphId, wanted: set<NodeId>)
    requires AllComplete(nodes)
    ensures AllComplete(SetMembers(nodes, project, g, wanted)) && AllComplete(DropMembership(nodes, g))
  {
  }

  lemma {:induction false} AddingKeepsComplete(d: Graph, pr: Principal, inputs: seq<NodeInput>)
    requires AllComplete(d.nodes) && AddInputs(d, pr, inputs).Done?
    ensures AllComplete(AddInputs(d, pr, inputs).value.nodes)
    decreases |inputs|
  {
    if inputs != [] {
      var i := inputs[0];
      AdmissibleIsComplete(d, pr, i.node, i.creator);
      AddingKeepsComplete(AddInput(d, pr, i).value, pr, inputs[1..]);
    }
  }

  lemma DecidingKeepsComplete(d: Graph, pr: Principal, x: Decision, sources: seq<string>)
    requires AllComplete(d.nodes) && (x.action == Reject || x.kind in KINDS)
    ensures AllComplete(ApplyDecision(d, pr, x, sources).nodes)
  {
    if x.action != Reject { assert "candidate:" + x.candidate in ReviewedNode(d, pr, x, sources).sources; }
  }

  lemma {:induction false} ReviewingKeepsComplete(d: Graph, pr: Principal, xs: seq<Decision>, sources: seq<seq<string>>)
    requires AllComplete(d.nodes) && |xs| == |sources|
    requires forall x <- xs :: x.action == Reject || x.kind in KINDS
    ensures AllComplete(ApplyDecisions(d, pr, xs, sources).nodes)
    decreases |xs|
  {
    if xs != [] {
      DecidingKeepsComplete(d, pr, xs[0], sources[0]);
      ReviewingKeepsComplete(ApplyDecision(d, pr, xs[0], sources[0]), pr, xs[1..], sources[1..]);
    }
  }

  lemma ProjectingKeepsComplete(d: Graph, pr: Principal, p: Projection)
    requires AllComplete(d.nodes) && ProjectTaskContext(d, pr, p).Done?
    ensures AllComplete(ProjectTaskContext(d, pr, p).value.nodes)
  {
    KindIs(p.kind);
    var own := RevisionRef(p.revision);
    assert own[|PREFIX|..] == p.revision;
    assert ([own] + p.sources)[0] == own;
    assert own in ProjectionRefs(p);
  }

  lemma StepKeepsComplete(d: Graph, s: Step)
    requires AllComplete(d.nodes)
    ensures AllComplete(Apply(d, s).nodes)
  {
    if Attempt(d, s).Done? {
      match s
      case CreateNodeStep(_, _) => CuratingKeepsComplete(d, s);
      case UpdateNodeStep(_, _, _, _) => CuratingKeepsComplete(d, s);
      case CreateSubgraphStep(_, _, _, _) => GroupingKeepsComplete(d, s);
      case UpdateSubgraphStep(_, _, _, _, _, _) => GroupingKeepsComplete(d, s);
      case DeleteSubgraphStep(_, _, _) => GroupingKeepsComplete(d, s);
      case CreateNodesStep(pr, _, inputs) => AddingKeepsComplete(d, pr, inputs);
      case ProjectStep(pr, p) => ProjectingKeepsComplete(d, pr, p);
      case ReviewStep(pr, xs, sources) => BatchKeepsComplete(d, pr, xs, sources);
      case _ =>
    }
  }

  lemma CuratingKeepsComplete(d: Graph, s: Step)
    requires AllComplete(d.nodes) && (s.CreateNodeStep? || s.UpdateNodeStep?) && Attempt(d, s).Done?
    ensures AllComplete(Apply(d, s).nodes)
  {
    if s.CreateNodeStep? {
      AdmissibleIsComplete(d, s.pr, NewNode(d, s.pr, s.request), s.pr.actor);
    } else {
      AdmissibleIsComplete(d, s.pr, UpdatedNode(d, s.node, s.request), d.nodes[s.node].node.creator);
    }
  }

  lemma GroupingKeepsComplete(d: Graph, s: Step)
    requires AllComplete(d.nodes) && Attempt(d, s).Done?
    requires s.CreateSubgraphStep? || s.UpdateSubgraphStep? || s.DeleteSubgraphStep?
    ensures AllComplete(Apply(d, s).nodes)
  {
    match s
    case CreateSubgraphStep(pr, _, _, members) =>
      MembersKeepComplete(d.nodes, pr.project, FirstFree(d.subgraphs, |d.subgraphs| + 1), UniqueNodes(members));
    case UpdateSubgraphStep(pr, g, _, _, _, members) =>
      MembersKeepComplete(d.nodes, pr.project, g, UniqueNodes(members));
    case DeleteSubgraphStep(pr, g, _) => MembersKeepComplete(d.nodes, pr.project, g, {});
  }

  lemma BatchKeepsComplete(d: Graph, pr: Principal, xs: seq<Decision>, sources: seq<seq<string>>)
    requires AllComplete(d.nodes) && |xs| == |sources| && ReviewBatch(d, pr, xs, sources).Done?
    ensures AllComplete(ReviewBatch(d, pr, xs, sources).value.nodes)
  {
    forall x | x in xs ensures x.action == Reject || x.kind in KINDS { KindIs(x.kind); }
    ReviewingKeepsComplete(d, pr, xs, sources);
  }

  /** In every graph a run reaches, whatever was submitted, each node is of one of the three kinds, in one of the four
      statuses, and cites a source. */
  lemma {:induction false} RunKeepsComplete(d: Graph, steps: seq<Step>)
    requires AllComplete(d.nodes)
    ensures AllComplete(After(d, steps).nodes)
    decreases |steps|
  {
    if steps != [] {
      StepKeepsComplete(d, steps[0]);
      RunKeepsComplete(Apply(d, steps[0]), steps[1..]);
    }
  }

  lemma EveryReachableNodeIsComplete(steps: seq<Step>)
    ensures AllComplete(After(EMPTY, steps).nodes)
  {
    RunKeepsComplete(EMPTY, steps);
  }

  // ---------------------------------------------------------------------------------------
  // Nodes
  // ---------------------------------------------------------------------------------------

  /** A general subgraph of the project. */
  predicate IsOpen(d: Graph, pr: Principal, g: SubgraphId) {
    g in d.subgraphs && d.subgraphs[g].project == pr.project && d.subgraphs[g].kind == General
  }

  /** What a curator may write into a node. */
  ghost predicate Writable(d: Graph, pr: Principal, q: NodeRequest) {
    && q.statement != "" && q.kind in KINDS && (exists s <- q.sources :: s != "")
    && forall g <- q.subgraphs :: g == NamedSubgraph("") || IsOpen(d, pr, g)
  }

  /** The node says what the request says. */
  ghost predicate Says(n: Node, q: NodeRequest) {
    && n.kind == q.kind && n.statement == q.statement
    && (forall g :: g in n.subgraphs <==> g in q.subgraphs && g != NamedSubgraph(""))
    && (forall s :: s in n.sources <==> s in q.sources && s != "")
  }

  lemma AdmissibleIff(d: Graph, pr: Principal, n: Node, q: NodeRequest)
    requires Says(n, q) && n.id != Named("")
    ensures Admissible(d, pr, n, n.creator) <==> Writable(d, pr, q) && n.creator != "" && n.status in STATUSES
  {
    KindIs(n.kind);
    StatusIs(n.status);
    if exists s <- q.sources :: s != "" {
      var s :| s in q.sources && s != "";
      assert s in n.sources;
    }
    if n.sources != {} {
      var s :| s in n.sources;
      assert s in q.sources;
    }
    assert (forall g <- n.subgraphs :: IsOpen(d, pr, g)) <==>
           forall g <- q.subgraphs :: g == NamedSubgraph("") || IsOpen(d, pr, g);
    forall g | g in n.subgraphs && g in d.subgraphs
      ensures CanSeeSubgraph(pr, d.subgraphs[g]) && d.subgraphs[g].kind == General <==> IsOpen(d, pr, g)
    {
    }
  }

  /** A node is created exactly for somebody who writes what may be written; it is stored under the next generated id,
      accepted whatever the request says, at revision one, as theirs. */
  lemma CreatesIff(d: Graph, pr: Principal, q: NodeRequest)
    ensures CreateNode(d, pr, q).Done? <==> Writable(d, pr, q) && pr.actor != ""
    ensures CreateNode(d, pr, q).Done? ==>
              var d', id := CreateNode(d, pr, q).value, NodeSeq(d.nextSeq + 1);
              && id in d'.nodes && d'.nodes == d.nodes[id := d'.nodes[id]] && d'.nextSeq == d.nextSeq + 1
              && var r := d'.nodes[id];
                 && Says(r.node, q) && r.node.id == id && r.node.status == "accepted" && r.node.creator == pr.actor
                 && r.revision == 1 && r.project == pr.project && r.sequence == d.nextSeq + 1
  {
    AdmissibleIff(d, pr, NewNode(d, pr, q), q);
  }

  /** The node is a member of no task's subgraph. */
  predicate InNoTask(d: Graph, id: NodeId)
    requires id in d.nodes
  {
    forall g <- d.nodes[id].node.subgraphs :: g in d.subgraphs ==> d.subgraphs[g].kind == General
  }

  /** The caller saw the node as it is, and it is the project's to edit. */
  predicate MayEdit(d: Graph, pr: Principal, id: NodeId, expected: int) {
    && id in d.nodes && d.nodes[id].project == pr.project && InNoTask(d, id)
    && expected == d.nodes[id].revision && expected >= 1
  }

  /** A node is changed exactly by a caller who saw it as it is and writes what may be written, with one of the four
      statuses. It then says what the request says, at the next revision, and still belongs to who created it. */
  lemma UpdatesIff(d: Graph, pr: Principal, id: NodeId, expected: int, q: NodeRequest)
    requires Sound(d)
    ensures UpdateNode(d, pr, id, expected, q).Done? <==>
            && MayEdit(d, pr, id, expected) && Writable(d, pr, q) && q.status in STATUSES
            && d.nodes[id].node.creator != "" && id != Named("")
    ensures UpdateNode(d, pr, id, expected, q).Done? ==>
              var d' := UpdateNode(d, pr, id, expected, q).value;
              && id in d'.nodes && d'.nodes == d.nodes[id := d'.nodes[id]] && d'.edges == d.edges
              && var was, r := d.nodes[id], d'.nodes[id];
                 && Says(r.node, q) && r.node.status == q.status && r.node.id == id
                 && r.node.creator == was.node.creator && r.revision == was.revision + 1
                 && r.project == was.project && r.sequence == was.sequence
  {
    if id in d.nodes {
      assert NodeOk(d, id);
      if id != Named("") { AdmissibleIff(d, pr, UpdatedNode(d, id, q), q); }
    }
  }

  /** A node is deleted exactly by a caller who saw it as it is, with every edge at it and nothing else. */
  lemma DeletesIff(d: Graph, pr: Principal, id: NodeId, expected: int)
    ensures DeleteNode(d, pr, id, expected).Done? <==> MayEdit(d, pr, id, expected)
    ensures DeleteNode(d, pr, id, expected).Done? ==>
              var d' := DeleteNode(d, pr, id, expected).value;
              && d'.nodes == d.nodes - {id}
              && forall e :: e in d'.edges <==> e in d.edges && e.to != id && e.origin != FromNode(id)
  {
  }

  /** A node of a batch is taken exactly when its id is new and it is complete, has a statement and a creator, who is
      the one the batch names if it names one, and is a member of open subgraphs only. */
  lemma AddsIff(d: Graph, pr: Principal, i: NodeInput)
    ensures AddInput(d, pr, i).Done? <==>
            && i.node.id !in d.nodes && i.node.id != Named("") && Complete(i.node) && i.node.statement != ""
            && i.node.creator != "" && (i.creator != "" ==> i.node.creator == i.creator)
            && forall g <- i.node.subgraphs :: IsOpen(d, pr, g)
  {
    KindIs(i.node.kind);
    StatusIs(i.node.status);
  }

  /** The node given before counts as the previous one: its creator's, of the project and seen, and not overtaken. */
  predicate Continues(d: Graph, pr: Principal, i: NodeInput) {
    && i.previous in d.nodes && i.previous != Named("") && d.nodes[i.previous].project == pr.project
    && CanSeeNode(pr, d.subgraphs, d.nodes[i.previous]) && d.nodes[i.previous].node.creator == i.creator
    && d.nodes[i.previous].node.status in {"accepted", "disputed"}
  }

  /** What one node of a batch adds: itself as given, an edge from the node its creator wrote before if that still
      stands, and an edge from each subgraph of its context that the principal sees. */
  lemma AddsEdges(d: Graph, pr: Principal, i: NodeInput)
    requires AllComplete(d.nodes) && AddInput(d, pr, i).Done?
    ensures var d' := AddInput(d, pr, i).value;
            && d'.nodes == d.nodes[i.node.id := NodeRecord(i.node, 1, pr.project, d.nextSeq + 1)]
            && forall e :: e in d'.edges <==>
                 || e in d.edges
                 || (e == Edge(FromNode(i.previous), i.node.id, "logical_adjacent") && Continues(d', pr, i))
                 || (e.origin.FromSubgraph? && e == Edge(e.origin, i.node.id, "derives_from_subgraph")
                     && e.origin.subgraph in i.subscribed && e.origin.subgraph in d.subgraphs
                     && CanSeeSubgraph(pr, d.subgraphs[e.origin.subgraph]))
  {
  }

  // ---------------------------------------------------------------------------------------
  // Subgraphs
  // ---------------------------------------------------------------------------------------

  /** Every named node is one of the project that no task has. */
  predicate MayJoin(d: Graph, pr: Principal, members: seq<NodeId>) {
    forall id <- members :: id == Named("") || (id in d.nodes && d.nodes[id].project == pr.project && InNoTask(d, id))
  }

  lemma JoinIff(d: Graph, pr: Principal, members: seq<NodeId>)
    ensures MembersAllowed(d, pr, UniqueNodes(members)) <==> MayJoin(d, pr, members)
  {
    assert forall id :: id in UniqueNodes(members) <==> id in members && id != Named("");
  }

  /** Of the project's nodes exactly the named ones are members of the subgraph; every other membership, and all else of
      every node, is as it was. */
  ghost predicate MembersAre(d: Graph, d': Graph, pr: Principal, g: SubgraphId, members: seq<NodeId>) {
    && d'.nodes.Keys == d.nodes.Keys
    && forall id <- d.nodes ::
         && d'.nodes[id] == d.nodes[id].(node := d.nodes[id].node.(subgraphs := d'.nodes[id].node.subgraphs))
         && (forall x :: x != g ==> (x in d'.nodes[id].node.subgraphs <==> x in d.nodes[id].node.subgraphs))
         && (g in d'.nodes[id].node.subgraphs <==>
               if d.nodes[id].project == pr.project then id in members && id != Named("")
               else g in d.nodes[id].node.subgraphs)
  }

  /** A subgraph is made exactly under a name and of nodes that may join, and is general, of the project, at revision
      one. */
  lemma GroupsIff(d: Graph, pr: Principal, name: string, summary: string, members: seq<NodeId>)
    ensures CreateSubgraph(d, pr, name, summary, members).Done? <==> name != "" && MayJoin(d, pr, members)
    ensures CreateSubgraph(d, pr, name, summary, members).Done? ==>
              var d' := CreateSubgraph(d, pr, name, summary, members).value;
              var g := FirstFree(d.subgraphs, |d.subgraphs| + 1);
              && g !in d.subgraphs
              && d'.subgraphs == d.subgraphs[g := SubgraphRecord(name, summary, 1, General, pr.project, "")]
              && MembersAre(d, d', pr, g, members)
              && d'.edges == d.edges && d'.bindings == d.bindings && d'.projections == d.projections
  {
    JoinIff(d, pr, members);
  }

  /** One is changed exactly by a caller who saw it as it is; it takes the name and the summary given. */
  lemma RegroupsIff(d: Graph, pr: Principal, g: SubgraphId, expected: int, name: string, summary: string,
                    members: seq<NodeId>)
    ensures UpdateSubgraph(d, pr, g, expected, name, summary, members).Done? <==>
            IsOpen(d, pr, g) && expected == d.subgraphs[g].revision && expected >= 1 && MayJoin(d, pr, members)
    ensures UpdateSubgraph(d, pr, g, expected, name, summary, members).Done? ==>
              var d' := UpdateSubgraph(d, pr, g, expected, name, summary, members).value;
              && d'.subgraphs == d.subgraphs[g := d.subgraphs[g].(name := name, summary := summary,
                                                                  revision := expected + 1)]
              && MembersAre(d, d', pr, g, members)
              && d'.edges == d.edges && d'.bindings == d.bindings && d'.projections == d.projections
  {
    JoinIff(d, pr, members);
  }

  /** One is deleted exactly by a caller who saw it as it is, with its memberships and the edges from it. */
  lemma UngroupsIff(d: Graph, pr: Principal, g: SubgraphId, expected: int)
    requires Sound(d)
    ensures DeleteSubgraph(d, pr, g, expected).Done? <==>
            IsOpen(d, pr, g) && expected == d.subgraphs[g].revision && expected >= 1
    ensures DeleteSubgraph(d, pr, g, expected).Done? ==>
              var d' := DeleteSubgraph(d, pr, g, expected).value;
              && d'.subgraphs == d.subgraphs - {g} && MembersAre(d, d', pr, g, [])
              && forall e :: e in d'.edges <==> e in d.edges && e.origin != FromSubgraph(g)
  {
    if DeleteSubgraph(d, pr, g, expected).Done? {
      forall id | id in d.nodes && d.nodes[id].project != pr.project ensures g !in d.nodes[id].node.subgraphs {
        assert NodeOk(d, id);
      }
    }
  }

  // ---------------------------------------------------------------------------------------
  // Tasks and projections
  // ---------------------------------------------------------------------------------------

  /** A known task that is not bound gets a subgraph of its own, once. */
  lemma RegistersIff(d: Graph, pr: Principal, task: TaskId, taskExists: bool)
    ensures var t := if task != "" then task else pr.task;
            var k, g := TaskKey(pr.project, t), NamedSubgraph(pr.project + "-" + t + "-context");
            var r := RegisterTaskSubgraph(d, pr, task, taskExists);
            && (r.Done? <==> t != "" && taskExists && (k in d.bindings || g !in d.subgraphs))
            && (r.Done? && k in d.bindings ==> r.value == d)
            && (r.Done? && k !in d.bindings ==>
                  && r.value == d.(bindings := d.bindings[k := g], revision := d.revision + 1,
                                   subgraphs := d.subgraphs[g := r.value.subgraphs[g]])
                  && r.value.subgraphs[g] == SubgraphRecord(t, "task context", 1, Task, pr.project, t))
  {
  }

  /** The subgraphs bound to the recipients. */
  ghost function BoundTo(d: Graph, pr: Principal, p: Projection): set<SubgraphId> {
    set t <- p.recipients | TaskKey(pr.project, t) in d.bindings :: d.bindings[TaskKey(pr.project, t)]
  }

  /** A projection that goes to known, bound tasks and to exactly their subgraphs. */
  ghost predicate Addressed(d: Graph, pr: Principal, p: Projection) {
    && p.recipients != [] && p.recipientsKnown
    && (forall t <- p.recipients :: t != "" && TaskKey(pr.project, t) in d.bindings)
    && (forall g :: g in BoundTo(d, pr, p) <==> g in p.subgraphs && g != NamedSubgraph(""))
  }

  lemma BoundIff(d: Graph, pr: Principal, p: Projection)
    requires Sound(d)
    ensures ProjectionBound(d, pr, p) <==>
            && p.id != "" && p.revision != "" && p.statement != "" && p.kind in KINDS && p.sources != []
            && Addressed(d, pr, p)
  {
    KindIs(p.kind);
    var bound, given := BoundTo(d, pr, p), UniqueSubgraphs(p.subgraphs);
    if ProjectionBound(d, pr, p) {
      assert bound <= given;
      SubsetOfSameSize(bound, given);
    }
    if Addressed(d, pr, p) {
      assert bound == given;
      var t := p.recipients[0];
      assert d.bindings[TaskKey(pr.project, t)] in bound;
      assert p.subgraphs != [];
      forall g | g in given
        ensures g in d.subgraphs && d.subgraphs[g].project == pr.project && d.subgraphs[g].kind == Task
      {
        var t :| t in p.recipients && TaskKey(pr.project, t) in d.bindings && d.bindings[TaskKey(pr.project, t)] == g;
        assert BindingOk(d, TaskKey(pr.project, t));
      }
    }
  }

  /** The node says what the projection says, in its subgraphs, and cites its revision beside its sources. */
  ghost predicate Projects(n: Node, p: Projection) {
    && n.statement == p.statement && n.kind == p.kind && n.status == "accepted"
    && (forall g :: g in n.subgraphs <==> g in p.subgraphs && g != NamedSubgraph(""))
    && (forall s :: s in n.sources <==> s == "projection-revision:" + p.revision || (s in p.sources && s != ""))
  }

  lemma ProjectedSays(id: NodeId, creator: string, p: Projection)
    ensures Projects(ProjectedNode(id, creator, p), p)
  {
    var own := RevisionRef(p.revision);
    assert own != "";
    assert forall s :: s in [own] + p.sources <==> s == own || s in p.sources;
  }

  /** A first projection is stored under the next generated id as its sender's; a newer one changes that node and leaves
      its id and its creator. */
  lemma ProjectionIs(d: Graph, pr: Principal, p: Projection)
    requires Sound(d) && ProjectTaskContext(d, pr, p).Done? && ProjectTaskContext(d, pr, p).value != d
    ensures var d', k := ProjectTaskContext(d, pr, p).value, ProjectionKey(pr.project, p.id);
            && k in d'.projections && d'.projections[k] in d'.nodes
            && var id := d'.projections[k];
               && d'.nodes == d.nodes[id := d'.nodes[id]] && Projects(d'.nodes[id].node, p)
               && (if k in d.projections
                   then && d'.projections == d.projections && id in d.nodes
                        && d'.nodes[id].node.creator == d.nodes[id].node.creator
                        && d'.nodes[id].revision == d.nodes[id].revision + 1
                   else && d'.projections == d.projections[k := TaskSeq(d.nextSeq + 1)]
                        && d'.nodes[id].node.creator == pr.actor && d'.nodes[id].revision == 1
                        && d'.nodes[id].project == pr.project)
  {
    var k := ProjectionKey(pr.project, p.id);
    if k in d.projections {
      assert ProjectionOk(d, k);
      var r := d.nodes[d.projections[k]];
      assert NodeOk(d, d.projections[k]);
      ProjectedSays(r.node.id, r.node.creator, p);
    } else {
      ProjectedSays(TaskSeq(d.nextSeq + 1), pr.actor, p);
    }
  }

  // ---------------------------------------------------------------------------------------
  // Candidates and reviews
  // ---------------------------------------------------------------------------------------

  /** A decision may be taken: a rejection always; otherwise of a known kind, for open subgraphs only, and unless it
      creates, about a node of the project that no task has. Such a node the reviewer sees anyway. */
  lemma DecisionIff(d: Graph, pr: Principal, x: Decision)
    requires Sound(d)
    ensures DecisionValid(d, pr, x) <==>
            || x.action == Reject
            || (&& x.action in {Create, Revise, Supersede, Dispute} && x.kind in KINDS
                && (forall g <- x.subgraphs :: IsOpen(d, pr, g))
                && (x.action != Create ==>
                      && x.target in d.nodes && x.target != Named("") && d.nodes[x.target].project == pr.project
                      && InNoTask(d, x.target)))
  {
    KindIs(x.kind);
    if x.target in d.nodes { assert NodeOk(d, x.target); }
    forall g | g in x.subgraphs && g in d.subgraphs
      ensures CanSeeSubgraph(pr, d.subgraphs[g]) && d.subgraphs[g].kind == General <==> IsOpen(d, pr, g)
    {
    }
  }

  /** A candidate is taken exactly while the task's memory is open, with a known kind and a source and for no task's
      subgraph; it is listed last, as its submitter's. */
  lemma CandidateIff(m: Memory, d: Graph, pr: Principal, q: CandidateRequest, acceptable: bool)
    ensures var k := TaskKey(pr.project, pr.task);
            SubmitCandidate(m, d, pr, q, acceptable).Done? <==>
            && pr.task != "" && acceptable && q.kind in KINDS && |q.sources| > 0 && m.State(k) == Open
            && forall g <- q.subgraphs :: g in d.subgraphs ==> d.subgraphs[g].kind == General
    ensures SubmitCandidate(m, d, pr, q, acceptable).Done? ==>
              var m', k := SubmitCandidate(m, d, pr, q, acceptable).value, TaskKey(pr.project, pr.task);
              && m' == m.(candidates := m'.candidates) && |m'.Batch(k)| == |m.Batch(k)| + 1
              && (forall other :: other != k ==> m'.Batch(other) == m.Batch(other))
              && m'.Batch(k)[..|m.Batch(k)|] == m.Batch(k)
              && var c := m'.Batch(k)[|m.Batch(k)|];
                 c == Candidate(c.id, q.statement, q.kind, q.sources, q.subgraphs, pr.actor)
  {
    KindIs(q.kind);
    assert HasTaskMembership(d.subgraphs, set g | g in q.subgraphs) <==>
           exists g <- q.subgraphs :: g in d.subgraphs && d.subgraphs[g].kind == Task;
  }

  /** A memory is closed exactly for a task that is done, and only an open one changes. */
  lemma FinalizesIff(m: Memory, pr: Principal, task: TaskId, taskDone: bool)
    ensures var t := if task != "" then task else pr.task;
            var r, k := FinalizeTaskMemory(m, pr, task, taskDone), TaskKey(pr.project, t);
            && (r.Done? <==> t != "" && taskDone)
            && (r.Done? ==> r.value == if m.State(k) == Open then m.(states := m.states[k := Frozen]) else m)
  {
  }
}
