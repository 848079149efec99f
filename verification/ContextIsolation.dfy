/** Exactly when edges stay inside one project: over every step, and so over every run, whatever ids callers choose.
 */
module ContextIsolation {
  import opened ContextGraph
  import opened ContextGraphRuns
  import opened ContextRevisions

  /** The project a stored node is in after the step: that of the caller if the step stores another under its id. */
  function HomeAfter(d: Graph, s: Step, id: NodeId): ProjectId
    requires id in d.nodes
  {
    if id in GeneratedIds(d, s) then s.pr.project else d.nodes[id].project
  }

  /** The step leaves both ends of the edge in one project. */
  predicate StaysTogether(d: Graph, s: Step, e: Edge) {
    && e.to in d.nodes
    && match e.origin
       case FromNode(id) => id in d.nodes && HomeAfter(d, s, id) == HomeAfter(d, s, e.to)
       case FromSubgraph(g) => g in d.subgraphs && d.subgraphs[g].project == HomeAfter(d, s, e.to)
  }

  /** Steps that generate ids leave the edges alone and move exactly the replaced nodes. */
  ghost predicate MovesReplaced(d: Graph, d': Graph, ids: set<NodeId>, project: ProjectId) {
    && d'.edges == d.edges && SameShape(d, d') && d.nodes.Keys <= d'.nodes.Keys
    && forall id {:trigger d.nodes[id]} {:trigger d'.nodes[id]} | id in d.nodes ::
         d'.nodes[id].project == if id in ids then project else d.nodes[id].project
  }

  lemma MovedOn(a: Graph, b: Graph, c: Graph, ids: set<NodeId>, ids': set<NodeId>, project: ProjectId)
    requires MovesReplaced(a, b, ids, project) && MovesReplaced(b, c, ids', project)
    ensures MovesReplaced(a, c, ids + ids', project)
  {
  }

  lemma DecidingMoves(d: Graph, pr: Principal, x: Decision, sources: seq<string>)
    ensures MovesReplaced(d, ApplyDecision(d, pr, x, sources),
                          if x.action == Reject then {} else {ReviewSeq(d.nextSeq + 1)}, pr.project)
    ensures ApplyDecision(d, pr, x, sources).nextSeq == d.nextSeq + if x.action == Reject then 0 else 1
  {
    ApplyDecisionFrame(d, pr, x, sources);
  }

  lemma {:induction false} ReviewingMoves(d: Graph, pr: Principal, xs: seq<Decision>, sources: seq<seq<string>>)
    requires |xs| == |sources|
    ensures MovesReplaced(d, ApplyDecisions(d, pr, xs, sources), ReviewedIds(d.nextSeq, xs), pr.project)
    decreases |xs|
  {
    if xs != [] {
      var d' := ApplyDecision(d, pr, xs[0], sources[0]);
      var ids := if xs[0].action == Reject then {} else {ReviewSeq(d.nextSeq + 1)};
      DecidingMoves(d, pr, xs[0], sources[0]);
      ReviewingMoves(d', pr, xs[1..], sources[1..]);
      MovedOn(d, d', ApplyDecisions(d, pr, xs, sources), ids, ReviewedIds(d'.nextSeq, xs[1..]), pr.project);
      assert ids + ReviewedIds(d'.nextSeq, xs[1..]) == ReviewedIds(d.nextSeq, xs);
    }
  }

  lemma CreatingMoves(d: Graph, s: Step)
    requires Creates(d, s)
    ensures MovesReplaced(d, Apply(d, s), GeneratedIds(d, s), s.pr.project)
  {
    var n := StoredNode(d, s);
    assert GeneratedIds(d, s) == {n.id};
    StoringMoves(d, NodeRecord(n, 1, s.pr.project, d.nextSeq + 1), Apply(d, s));
  }

  lemma StoringMoves(d: Graph, r: NodeRecord, d': Graph)
    requires d'.nodes == d.nodes[r.node.id := r] && d'.subgraphs == Bump(d.subgraphs, r.node.subgraphs)
    requires d'.edges == d.edges
    ensures MovesReplaced(d, d', {r.node.id}, r.project)
  {
  }

  lemma ReviewStepMoves(d: Graph, s: Step)
    requires s.ReviewStep? && Attempt(d, s).Done?
    ensures MovesReplaced(d, Apply(d, s), GeneratedIds(d, s), s.pr.project)
  {
    ReviewingMoves(d, s.pr, s.decisions, s.sources);
    assert GeneratedIds(d, s) == ReviewedIds(d.nextSeq, s.decisions);
  }

  lemma MovedKeepsIff(d: Graph, s: Step)
    requires WellFormed(d) && MovesReplaced(d, Apply(d, s), GeneratedIds(d, s), s.pr.project) && Sound(Apply(d, s))
    ensures WellFormed(Apply(d, s)) <==> forall e <- d.edges :: StaysTogether(d, s, e)
  {
    var d' := Apply(d, s);
    forall e | e in d.edges ensures EdgeOk(d', e) <==> StaysTogether(d, s, e) { assert EdgeOk(d, e); }
  }

  /** Steps that generate no ids keep every edge in its project. */
  lemma OtherStepKeeps(d: Graph, s: Step)
    requires WellFormed(d) && !Creates(d, s) && !s.ReviewStep?
    ensures WellFormed(Apply(d, s)) && GeneratedIds(d, s) == {}
  {
    if Attempt(d, s).Done? {
      if SetsMembers(s) {
        SubgraphStepKeeps(d, s);
      } else {
        match s
        case UpdateNodeStep(pr, id, expected, q) => UpdateNodeKeeps(d, pr, id, expected, q);
        case DeleteNodeStep(pr, id, expected) => DeleteNodeKeeps(d, pr, id, expected);
        case CreateNodesStep(pr, expected, inputs) => CreateNodesKeeps(d, pr, expected, inputs);
        case RegisterStep(pr, task, taskExists) => RegisterKeeps(d, pr, task, taskExists);
        case ProjectStep(pr, p) => ProjectKeepsIff(d, pr, p);
        case CreateNodeStep(_, _) => assert false;
      }
    }
  }

  lemma UnmovedStayTogether(d: Graph, s: Step)
    requires WellFormed(d) && GeneratedIds(d, s) == {}
    ensures forall e <- d.edges :: StaysTogether(d, s, e)
  {
    forall e | e in d.edges ensures StaysTogether(d, s, e) { assert EdgeOk(d, e); }
  }

  /** A step keeps projects apart exactly when no node it replaces has an edge whose other end is, after the step, in
      another project. */
  lemma StepKeepsApartIff(d: Graph, s: Step)
    requires WellFormed(d)
    ensures WellFormed(Apply(d, s)) <==> forall e <- d.edges :: StaysTogether(d, s, e)
  {
    StepKeepsSound(d, s);
    if Creates(d, s) {
      CreatingMoves(d, s);
      MovedKeepsIff(d, s);
    } else if s.ReviewStep? && Attempt(d, s).Done? {
      ReviewStepMoves(d, s);
      MovedKeepsIff(d, s);
    } else {
      if !s.ReviewStep? { OtherStepKeeps(d, s); }
      UnmovedStayTogether(d, s);
    }
  }

  ghost predicate ApartThroughout(d: Graph, steps: seq<Step>)
    decreases |steps|
  {
    WellFormed(d) && (steps == [] || ApartThroughout(Apply(d, steps[0]), steps[1..]))
  }

  ghost predicate TogetherThroughout(d: Graph, steps: seq<Step>)
    decreases |steps|
  {
    steps == [] || ((forall e <- d.edges :: StaysTogether(d, steps[0], e))
                    && TogetherThroughout(Apply(d, steps[0]), steps[1..]))
  }

  /** So a run keeps projects apart throughout exactly when each of its steps does. */
  lemma {:induction false} RunKeepsApartIff(d: Graph, steps: seq<Step>)
    requires WellFormed(d)
    ensures ApartThroughout(d, steps) <==> TogetherThroughout(d, steps)
    decreases |steps|
  {
    if steps != [] {
      StepKeepsApartIff(d, steps[0]);
      if WellFormed(Apply(d, steps[0])) { RunKeepsApartIff(Apply(d, steps[0]), steps[1..]); }
    }
  }
}
