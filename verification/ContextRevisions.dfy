/** What a revision promises a reader of the context graph. As long as it is neither deleted nor replaced, a node that
    shows the same revision shows the same text, and a subgraph that shows the same revision has the same members.
    When a step breaks this, when a node's memberships change unseen, and when the id of a deleted subgraph is given
    out again, is made exact.
 */
module ContextRevisions {
  import opened ContextGraph
  import opened ContextGraphRuns

  function MembersOf(d: Graph, g: SubgraphId): set<NodeId> {
    set id | id in d.nodes && g in d.nodes[id].node.subgraphs
  }

  /** A node without its memberships. */
  function TextOf(n: Node): Node {
    n.(subgraphs := {})
  }

  /** From d to d' the node's revision did not go back, and stood still only with its text. */
  ghost predicate NodeShows(d: Graph, d': Graph, id: NodeId) {
    id in d.nodes && id in d'.nodes ==>
      && d.nodes[id].revision <= d'.nodes[id].revision
      && (d.nodes[id].revision == d'.nodes[id].revision ==> TextOf(d.nodes[id].node) == TextOf(d'.nodes[id].node))
  }

  /** The same of a subgraph and its members. */
  ghost predicate SubgraphShows(d: Graph, d': Graph, g: SubgraphId) {
    g in d.subgraphs && g in d'.subgraphs ==>
      && d.subgraphs[g].revision <= d'.subgraphs[g].revision
      && (d.subgraphs[g].revision == d'.subgraphs[g].revision ==> MembersOf(d, g) == MembersOf(d', g))
  }

  // ---------------------------------------------------------------------------------------
  // Generated ids
  // ---------------------------------------------------------------------------------------

  /** The node a creation or a new projection stores. */
  function StoredNode(d: Graph, s: Step): Node
    requires s.CreateNodeStep? || s.ProjectStep?
  {
    if s.CreateNodeStep? then NewNode(d, s.pr, s.request)
    else ProjectedNode(TaskSeq(d.nextSeq + 1), s.pr.actor, s.projection)
  }

  /** The step stores a node under the id that is generated next. */
  predicate Creates(d: Graph, s: Step) {
    && (s.CreateNodeStep? || (s.ProjectStep? && ProjectionKey(s.pr.project, s.projection.id) !in d.projections))
    && Attempt(d, s).Done?
  }

  /** The ids the decisions generate. */
  function ReviewedIds(nextSeq: nat, xs: seq<Decision>): set<NodeId>
    decreases |xs|
  {
    if xs == [] then {}
    else if xs[0].action == Reject then ReviewedIds(nextSeq, xs[1..])
    else {ReviewSeq(nextSeq + 1)} + ReviewedIds(nextSeq + 1, xs[1..])
  }

  /** The ids an accepted step generates. */
  function GeneratedIds(d: Graph, s: Step): set<NodeId> {
    if Creates(d, s) then {StoredNode(d, s).id}
    else if s.ReviewStep? && Attempt(d, s).Done? then ReviewedIds(d.nextSeq, s.decisions)
    else {}
  }

  lemma {:induction false} ReviewedIdsAhead(nextSeq: nat, xs: seq<Decision>)
    ensures forall id <- ReviewedIds(nextSeq, xs) :: id.ReviewSeq? && id.n > nextSeq
    decreases |xs|
  {
    if xs != [] { ReviewedIdsAhead(if xs[0].action == Reject then nextSeq else nextSeq + 1, xs[1..]); }
  }

  lemma KnownIsNotGenerated(d: Graph, s: Step, id: NodeId)
    requires NotAhead(d.nextSeq, id)
    ensures id !in GeneratedIds(d, s)
  {
    if s.ReviewStep? { ReviewedIdsAhead(d.nextSeq, s.decisions); }
  }

  lemma {:induction false} ReviewCountsOn(d: Graph, pr: Principal, xs: seq<Decision>, sources: seq<seq<string>>)
    requires |xs| == |sources|
    ensures ApplyDecisions(d, pr, xs, sources).nextSeq >= d.nextSeq
    decreases |xs|
  {
    if xs != [] { ReviewCountsOn(ApplyDecision(d, pr, xs[0], sources[0]), pr, xs[1..], sources[1..]); }
  }

  /** Sequence numbers only grow. */
  lemma SequenceGrows(d: Graph, s: Step)
    ensures Apply(d, s).nextSeq >= d.nextSeq
  {
    if Attempt(d, s).Done? {
      match s
      case CreateNodesStep(pr, _, inputs) => AddInputsIds(d, pr, inputs);
      case ReviewStep(pr, xs, sources) => ReviewCountsOn(d, pr, xs, sources);
      case _ =>
    }
  }

  // ---------------------------------------------------------------------------------------
  // Nodes
  // ---------------------------------------------------------------------------------------

  ghost predicate KeepsNode(d: Graph, steps: seq<Step>, id: NodeId)
    decreases |steps|
  {
    id in d.nodes && (steps == [] || KeepsNode(Apply(d, steps[0]), steps[1..], id))
  }

  /** A batch leaves every stored node alone. */
  lemma {:induction false} AddingKeepsNode(d: Graph, pr: Principal, inputs: seq<NodeInput>, id: NodeId)
    requires id in d.nodes && AddInputs(d, pr, inputs).Done?
    ensures var d' := AddInputs(d, pr, inputs).value;
            id in d'.nodes && d'.nodes[id] == d.nodes[id]
    decreases |inputs|
  {
    if inputs != [] { AddingKeepsNode(AddInput(d, pr, inputs[0]).value, pr, inputs[1..], id); }
  }

  /** From d to d' the node keeps its memberships, and its revision stood still only with its text. */
  ghost predicate StaysGrouped(d: Graph, d': Graph, id: NodeId) {
    && id in d.nodes && id in d'.nodes && d'.nodes[id].node.subgraphs == d.nodes[id].node.subgraphs
    && NodeShows(d, d', id)
  }

  lemma DecidingKeepsNode(d: Graph, pr: Principal, x: Decision, sources: seq<string>, id: NodeId)
    requires id in d.nodes && (x.action == Reject || id != ReviewSeq(d.nextSeq + 1))
    ensures StaysGrouped(d, ApplyDecision(d, pr, x, sources), id)
  {
  }

  lemma {:induction false} ReviewingKeepsNode(d: Graph, pr: Principal, xs: seq<Decision>, sources: seq<seq<string>>,
                                              id: NodeId)
    requires id in d.nodes && |xs| == |sources| && id !in ReviewedIds(d.nextSeq, xs)
    ensures StaysGrouped(d, ApplyDecisions(d, pr, xs, sources), id)
    decreases |xs|
  {
    if xs != [] {
      DecidingKeepsNode(d, pr, xs[0], sources[0], id);
      ReviewingKeepsNode(ApplyDecision(d, pr, xs[0], sources[0]), pr, xs[1..], sources[1..], id);
    }
  }

  /** The step sets the members of a subgraph. */
  predicate SetsMembers(s: Step) {
    s.CreateSubgraphStep? || s.UpdateSubgraphStep? || s.DeleteSubgraphStep?
  }

  /** The subgraph whose members the step sets. */
  function Regrouped(d: Graph, s: Step): SubgraphId
    requires SetsMembers(s)
  {
    match s
    case CreateSubgraphStep(_, _, _, _) => FirstFree(d.subgraphs, |d.subgraphs| + 1)
    case UpdateSubgraphStep(_, g, _, _, _, _) => g
    case DeleteSubgraphStep(_, g, _) => g
  }

  /** The step wants the node in that subgraph. */
  predicate Wanted(s: Step, id: NodeId)
    requires SetsMembers(s)
  {
    match s
    case CreateSubgraphStep(_, _, _, members) => id in UniqueNodes(members)
    case UpdateSubgraphStep(_, _, _, _, _, members) => id in UniqueNodes(members)
    case DeleteSubgraphStep(_, _, _) => false
  }

  /** The node joined or left a subgraph and shows the same revision. */
  ghost predicate MovedUnseen(d: Graph, d': Graph, id: NodeId)
    requires id in d.nodes && id in d'.nodes
  {
    && d'.nodes[id].revision == d.nodes[id].revision
    && d'.nodes[id].node.subgraphs != d.nodes[id].node.subgraphs
  }

  lemma SubgraphStepMoves(d: Graph, s: Step, id: NodeId)
    requires Sound(d) && SetsMembers(s) && Attempt(d, s).Done? && id in d.nodes
    ensures id in Apply(d, s).nodes && NodeShows(d, Apply(d, s), id)
    ensures MovedUnseen(d, Apply(d, s), id) <==> Wanted(s, id) != (Regrouped(d, s) in d.nodes[id].node.subgraphs)
  {
    var g, before, after := Regrouped(d, s), d.nodes[id].node.subgraphs, Apply(d, s).nodes[id].node.subgraphs;
    assert NodeOk(d, id);
    if Wanted(s, id) {
      assert after == before + {g};
      assert g in after;
    } else {
      assert after == before - {g};
      assert g !in after;
    }
  }

  lemma ProjectingStays(d: Graph, pr: Principal, p: Projection, id: NodeId)
    requires Sound(d) && ProjectTaskContext(d, pr, p).Done? && id in d.nodes
    requires id !in GeneratedIds(d, ProjectStep(pr, p))
    ensures var d' := ProjectTaskContext(d, pr, p).value;
            id in d'.nodes && NodeShows(d, d', id) && !MovedUnseen(d, d', id)
  {
    var k, d' := ProjectionKey(pr.project, p.id), ProjectTaskContext(d, pr, p).value;
    if k in d.projections {
      assert ProjectionOk(d, k) && NodeOk(d, d.projections[k]);
      assert d' == d || d' == Reprojected(d, d.nodes[d.projections[k]], p);
    }
  }

  lemma NodeStepStays(d: Graph, s: Step, id: NodeId)
    requires Sound(d) && !SetsMembers(s) && Attempt(d, s).Done?
    requires id in d.nodes && id in Apply(d, s).nodes && id !in GeneratedIds(d, s)
    ensures NodeShows(d, Apply(d, s), id) && !MovedUnseen(d, Apply(d, s), id)
  {
    match s
    case CreateNodeStep(_, _) =>
    case UpdateNodeStep(_, x, _, _) => assert NodeOk(d, x);
    case DeleteNodeStep(_, _, _) =>
    case CreateNodesStep(pr, _, inputs) => AddingKeepsNode(d, pr, inputs, id);
    case RegisterStep(_, _, _) =>
    case ProjectStep(pr, p) => ProjectingStays(d, pr, p, id);
    case ReviewStep(pr, xs, sources) => ReviewingKeepsNode(d, pr, xs, sources, id);
  }

  /** Unless a step stores another node under its id, a node's memberships change while its revision stands still
      exactly when the step is an accepted creation, update or deletion of a subgraph that wants the node in the
      subgraph and it is not, or the other way round. */
  lemma MovedUnseenIff(d: Graph, s: Step, id: NodeId)
    requires Sound(d) && id in d.nodes && id in Apply(d, s).nodes && id !in GeneratedIds(d, s)
    ensures NodeShows(d, Apply(d, s), id)
    ensures MovedUnseen(d, Apply(d, s), id) <==>
            && SetsMembers(s) && Attempt(d, s).Done?
            && Wanted(s, id) != (Regrouped(d, s) in d.nodes[id].node.subgraphs)
  {
    if Attempt(d, s).Done? {
      if SetsMembers(s) { SubgraphStepMoves(d, s, id); } else { NodeStepStays(d, s, id); }
    }
  }

  /** No step of the run stores another node under the id. */
  ghost predicate NeverReplaced(d: Graph, steps: seq<Step>, id: NodeId)
    decreases |steps|
  {
    steps == [] || (id !in GeneratedIds(d, steps[0]) && NeverReplaced(Apply(d, steps[0]), steps[1..], id))
  }

  /** None ever does, once the id is not still to be generated. */
  lemma {:induction false} KnownIsNeverReplaced(d: Graph, steps: seq<Step>, id: NodeId)
    requires NotAhead(d.nextSeq, id)
    ensures NeverReplaced(d, steps, id)
    decreases |steps|
  {
    if steps != [] {
      KnownIsNotGenerated(d, steps[0], id);
      SequenceGrows(d, steps[0]);
      KnownIsNeverReplaced(Apply(d, steps[0]), steps[1..], id);
    }
  }

  /** Over every run that keeps a node and stores no other under its id, its revision never goes back, and the same
      revision means the same text. */
  lemma {:induction false} RevisionIdentifiesText(d: Graph, steps: seq<Step>, id: NodeId)
    requires Sound(d) && NeverReplaced(d, steps, id) && KeepsNode(d, steps, id)
    ensures id in After(d, steps).nodes && NodeShows(d, After(d, steps), id)
    decreases |steps|
  {
    if steps != [] {
      var d' := Apply(d, steps[0]);
      assert KeepsNode(d', steps[1..], id);
      MovedUnseenIff(d, steps[0], id);
      StepKeepsSound(d, steps[0]);
      RevisionIdentifiesText(d', steps[1..], id);
    }
  }

  /** No text is overwritten unseen: of two edits made against the same revision of a node that is not deleted
      or replaced in between, the second is refused. */
  lemma StaleEditIsRefused(d: Graph, pr: Principal, id: NodeId, expected: int, q: NodeRequest, steps: seq<Step>,
                           other: Principal, q': NodeRequest)
    requires Sound(d) && UpdateNode(d, pr, id, expected, q).Done?
    requires KeepsNode(UpdateNode(d, pr, id, expected, q).value, steps, id)
    requires NeverReplaced(UpdateNode(d, pr, id, expected, q).value, steps, id)
    ensures var later := After(UpdateNode(d, pr, id, expected, q).value, steps);
            UpdateNode(later, other, id, expected, q').Refused? && DeleteNode(later, other, id, expected).Refused?
  {
    assert NodeOk(d, id);
    UpdateNodeKeeps(d, pr, id, expected, q);
    RevisionIdentifiesText(UpdateNode(d, pr, id, expected, q).value, steps, id);
  }

  /** A node a caller stored under the id that is generated next is replaced by the next creation or projection;
      this shows in its revision exactly when it was never changed and its text is the new one. */
  lemma ReplacementShowsIff(d: Graph, s: Step)
    requires Sound(d) && Creates(d, s) && StoredNode(d, s).id in d.nodes
    ensures var was := d.nodes[StoredNode(d, s).id];
            NodeShows(d, Apply(d, s), StoredNode(d, s).id) <==>
            was.revision == 1 && TextOf(was.node) == TextOf(StoredNode(d, s))
  {
    var n := StoredNode(d, s);
    assert NodeOk(d, n.id);
    assert Apply(d, s).nodes[n.id] == NodeRecord(n, 1, s.pr.project, d.nextSeq + 1);
  }

  /** A "create" decision may name the id its own node will get; it is accepted, and the node is born outdated at
      revision two. */
  lemma NamesItself(d: Graph, pr: Principal, x: Decision, sources: seq<string>)
    requires DecisionValid(d, pr, x) && x.action == Create && x.target == ReviewSeq(d.nextSeq + 1)
    ensures var r := ReviewBatch(d, pr, [x], [sources]);
            && r.Done? && x.target in r.value.nodes
            && r.value.nodes[x.target].revision == 2 && r.value.nodes[x.target].node.status == "outdated"
  {
    var d' := ApplyDecision(d, pr, x, sources);
    DecisionStores(d, pr, x, sources);
    assert [x][1..] == [] && [sources][1..] == [];
    assert ApplyDecisions(d, pr, [x], [sources]) == ApplyDecisions(d', pr, [], []);
  }

  /** What a decision stores under the id it generates: a new node, or, when the decision names that very id as its
      target, one that is marked at once. */
  lemma DecisionStores(d: Graph, pr: Principal, x: Decision, sources: seq<string>)
    requires x.action != Reject
    ensures var n, d' := ReviewedNode(d, pr, x, sources), ApplyDecision(d, pr, x, sources);
            && n.id in d'.nodes
            && d'.nodes[n.id] == if x.target == n.id
                                 then NodeRecord(n.(status := TargetStatus(x.action)), 2, pr.project, d.nextSeq + 1)
                                 else NodeRecord(n, 1, pr.project, d.nextSeq + 1)
  {
  }

  /** A node a caller stored under that id is replaced; this shows in its revision exactly when it is lower than the
      new one, or the same with the same text. */
  lemma DecisionShowsIff(d: Graph, pr: Principal, x: Decision, sources: seq<string>)
    requires Sound(d) && x.action != Reject && ReviewSeq(d.nextSeq + 1) in d.nodes
    ensures var was, n := d.nodes[ReviewSeq(d.nextSeq + 1)], ReviewedNode(d, pr, x, sources);
            NodeShows(d, ApplyDecision(d, pr, x, sources), ReviewSeq(d.nextSeq + 1)) <==>
            if x.target == n.id
            then was.revision == 1
                 || (was.revision == 2 && TextOf(was.node) == TextOf(n.(status := TargetStatus(x.action))))
            else was.revision == 1 && TextOf(was.node) == TextOf(n)
  {
    DecisionStores(d, pr, x, sources);
    assert NodeOk(d, ReviewSeq(d.nextSeq + 1));
  }

  // ---------------------------------------------------------------------------------------
  // Subgraphs
  // ---------------------------------------------------------------------------------------

  /** From d to d' the subgraph counted a change exactly if something joined it, and otherwise lost exactly those of
      the ids that were its members. */
  ghost predicate CountsJoins(d: Graph, d': Graph, g: SubgraphId, ids: set<NodeId>, joined: bool) {
    && g in d.subgraphs && g in d'.subgraphs && d.subgraphs[g].revision <= d'.subgraphs[g].revision
    && (joined <==> d.subgraphs[g].revision < d'.subgraphs[g].revision)
    && (!joined ==> MembersOf(d', g) == MembersOf(d, g) - ids)
  }

  lemma CountsShowIff(d: Graph, d': Graph, g: SubgraphId, ids: set<NodeId>, joined: bool)
    requires CountsJoins(d, d', g, ids, joined)
    ensures SubgraphShows(d, d', g) <==> joined || ids !! MembersOf(d, g)
  {
    if !joined && SubgraphShows(d, d', g) {
      forall id | id in ids ensures id !in MembersOf(d, g) { assert id !in MembersOf(d', g); }
    }
    if ids !! MembersOf(d, g) { assert MembersOf(d, g) - ids == MembersOf(d, g); }
  }

  lemma CountsOn(a: Graph, b: Graph, c: Graph, g: SubgraphId, ids: set<NodeId>, j: bool, ids': set<NodeId>, j': bool)
    requires CountsJoins(a, b, g, ids, j) && CountsJoins(b, c, g, ids', j')
    ensures CountsJoins(a, c, g, ids + ids', j || j')
  {
    if !j && !j' { assert MembersOf(a, g) - ids - ids' == MembersOf(a, g) - (ids + ids'); }
  }

  /** A node stored under any id counts in exactly the subgraphs it joins. */
  lemma StoringCounts(d: Graph, r: NodeRecord, d': Graph, g: SubgraphId)
    requires d'.nodes == Stored(d, r).nodes && d'.subgraphs == Stored(d, r).subgraphs && g in d.subgraphs
    ensures CountsJoins(d, d', g, {r.node.id}, g in r.node.subgraphs)
  {
    if g !in r.node.subgraphs { assert MembersOf(d', g) == MembersOf(d, g) - {r.node.id}; }
  }

  lemma MarkingCounts(d: Graph, pr: Principal, x: Decision, g: SubgraphId)
    requires g in d.subgraphs
    ensures CountsJoins(d, MarkTarget(d, pr, x), g, {}, false)
  {
    assert MembersOf(MarkTarget(d, pr, x), g) == MembersOf(d, g) - {};
  }

  predicate DecisionJoins(x: Decision, g: SubgraphId) {
    x.action != Reject && g in UniqueSubgraphs(x.subgraphs)
  }

  predicate ReviewJoins(xs: seq<Decision>, g: SubgraphId) {
    exists x <- xs :: DecisionJoins(x, g)
  }

  lemma DecidingCounts(d: Graph, pr: Principal, x: Decision, sources: seq<string>, g: SubgraphId)
    requires g in d.subgraphs
    ensures CountsJoins(d, ApplyDecision(d, pr, x, sources), g,
                        if x.action == Reject then {} else {ReviewSeq(d.nextSeq + 1)}, DecisionJoins(x, g))
    ensures ApplyDecision(d, pr, x, sources).nextSeq == d.nextSeq + if x.action == Reject then 0 else 1
  {
    if x.action == Reject {
      assert MembersOf(d, g) - {} == MembersOf(d, g);
    } else {
      var r := NodeRecord(ReviewedNode(d, pr, x, sources), 1, pr.project, d.nextSeq + 1);
      var m := Stored(d, r);
      assert CountsJoins(d, m, g, {r.node.id}, DecisionJoins(x, g)) by { StoringCounts(d, r, m, g); }
      assert ApplyDecision(d, pr, x, sources) == MarkTarget(m, pr, x);
      MarkingCounts(m, pr, x, g);
      CountsOn(d, m, MarkTarget(m, pr, x), g, {r.node.id}, DecisionJoins(x, g), {}, false);
      assert {r.node.id} + {} == {r.node.id};
    }
  }

  /** One decision takes a node a caller stored under its id out of a subgraph; this shows in the subgraph's revision
      exactly when it had not the node or has the new one. */
  lemma DecisionShowsMembersIff(d: Graph, pr: Principal, x: Decision, sources: seq<string>, g: SubgraphId)
    requires g in d.subgraphs && x.action != Reject
    ensures SubgraphShows(d, ApplyDecision(d, pr, x, sources), g) <==>
            (ReviewSeq(d.nextSeq + 1) in MembersOf(d, g) ==> g in UniqueSubgraphs(x.subgraphs))
  {
    DecidingCounts(d, pr, x, sources, g);
    CountsShowIff(d, ApplyDecision(d, pr, x, sources), g, {ReviewSeq(d.nextSeq + 1)}, DecisionJoins(x, g));
  }

  lemma {:induction false} ReviewingCounts(d: Graph, pr: Principal, xs: seq<Decision>, sources: seq<seq<string>>,
                                           g: SubgraphId)
    requires |xs| == |sources| && g in d.subgraphs
    ensures CountsJoins(d, ApplyDecisions(d, pr, xs, sources), g, ReviewedIds(d.nextSeq, xs), ReviewJoins(xs, g))
    decreases |xs|
  {
    if xs == [] {
      assert MembersOf(d, g) - {} == MembersOf(d, g);
    } else {
      var d' := ApplyDecision(d, pr, xs[0], sources[0]);
      DecidingCounts(d, pr, xs[0], sources[0], g);
      ReviewingCounts(d', pr, xs[1..], sources[1..], g);
      var ids := if xs[0].action == Reject then {} else {ReviewSeq(d.nextSeq + 1)};
      CountsOn(d, d', ApplyDecisions(d, pr, xs, sources), g, ids, DecisionJoins(xs[0], g),
               ReviewedIds(d'.nextSeq, xs[1..]), ReviewJoins(xs[1..], g));
      assert ids + ReviewedIds(d'.nextSeq, xs[1..]) == ReviewedIds(d.nextSeq, xs);
      assert ReviewJoins(xs, g) <==> DecisionJoins(xs[0], g) || ReviewJoins(xs[1..], g) by { JoinsOneMore(xs, g); }
    }
  }

  lemma JoinsOneMore(xs: seq<Decision>, g: SubgraphId)
    requires xs != []
    ensures ReviewJoins(xs, g) <==> DecisionJoins(xs[0], g) || ReviewJoins(xs[1..], g)
  {
    if x :| x in xs && DecisionJoins(x, g) { assert x == xs[0] || x in xs[1..]; }
    if x :| x in xs[1..] && DecisionJoins(x, g) { assert x in xs; }
    assert xs[0] in xs;
  }

  /** A replaced node counts in exactly the subgraphs it joins or leaves. */
  lemma ReplacingShows(d: Graph, r: NodeRecord, g: SubgraphId)
    requires r.node.id in d.nodes
    ensures SubgraphShows(d, Replace(d, r, Changed(d.nodes[r.node.id].node.subgraphs, r.node.subgraphs)), g)
  {
    var changed := Changed(d.nodes[r.node.id].node.subgraphs, r.node.subgraphs);
    if g in d.subgraphs && g !in changed { assert MembersOf(Replace(d, r, changed), g) == MembersOf(d, g); }
  }

  lemma DeletingShows(d: Graph, pr: Principal, id: NodeId, expected: int, g: SubgraphId)
    requires DeleteNode(d, pr, id, expected).Done?
    ensures SubgraphShows(d, DeleteNode(d, pr, id, expected).value, g)
  {
    var d' := DeleteNode(d, pr, id, expected).value;
    if g in d.subgraphs && g !in d.nodes[id].node.subgraphs { assert MembersOf(d', g) == MembersOf(d, g); }
  }

  /** Setting the members of one subgraph leaves every other membership alone. */
  lemma MembersShow(d: Graph, h: SubgraphId, r: SubgraphRecord, w: set<NodeId>, g: SubgraphId)
    requires h in d.subgraphs ==> r.revision == d.subgraphs[h].revision + 1
    ensures SubgraphShows(d, WithMembers(d, h, r, w), g)
  {
    if g != h { assert MembersOf(WithMembers(d, h, r, w), g) == MembersOf(d, g); }
  }

  lemma DroppingShows(d: Graph, pr: Principal, h: SubgraphId, expected: int, g: SubgraphId)
    requires DeleteSubgraph(d, pr, h, expected).Done?
    ensures SubgraphShows(d, DeleteSubgraph(d, pr, h, expected).value, g)
  {
    if g != h { assert MembersOf(DeleteSubgraph(d, pr, h, expected).value, g) == MembersOf(d, g); }
  }

  /** A batch refuses ids that are stored, so it takes nothing out of a subgraph. */
  lemma {:induction false} AddingShows(d: Graph, pr: Principal, inputs: seq<NodeInput>, g: SubgraphId)
    requires AddInputs(d, pr, inputs).Done? && g in d.subgraphs
    ensures g in AddInputs(d, pr, inputs).value.subgraphs && SubgraphShows(d, AddInputs(d, pr, inputs).value, g)
    decreases |inputs|
  {
    if inputs != [] {
      var i, d' := inputs[0], AddInput(d, pr, inputs[0]).value;
      StoringCounts(d, NodeRecord(i.node, 1, pr.project, d.nextSeq + 1), d', g);
      CountsShowIff(d, d', g, {i.node.id}, g in i.node.subgraphs);
      AddingShows(d', pr, inputs[1..], g);
    }
  }

  lemma ReprojectingShows(d: Graph, pr: Principal, p: Projection, g: SubgraphId)
    requires Sound(d) && ProjectTaskContext(d, pr, p).Done? && ProjectionKey(pr.project, p.id) in d.projections
    ensures SubgraphShows(d, ProjectTaskContext(d, pr, p).value, g)
  {
    var k, d' := ProjectionKey(pr.project, p.id), ProjectTaskContext(d, pr, p).value;
    assert ProjectionOk(d, k) && NodeOk(d, d.projections[k]);
    var r := d.nodes[d.projections[k]];
    assert d' == d || d' == Reprojected(d, r, p);
    ReplacingShows(d, r.(node := ProjectedNode(r.node.id, r.node.creator, p), revision := r.revision + 1), g);
  }

  lemma SubgraphStepShows(d: Graph, s: Step, g: SubgraphId)
    requires Attempt(d, s).Done? && SetsMembers(s)
    ensures SubgraphShows(d, Apply(d, s), g)
  {
    match s
    case CreateSubgraphStep(pr, name, summary, members) =>
      MembersShow(d, FirstFree(d.subgraphs, |d.subgraphs| + 1),
                  SubgraphRecord(name, summary, 1, General, pr.project, ""), UniqueNodes(members), g);
    case UpdateSubgraphStep(pr, h, expected, name, summary, members) =>
      var r := d.subgraphs[h];
      MembersShow(d, h, r.(name := name, summary := summary, revision := r.revision + 1), UniqueNodes(members), g);
    case DeleteSubgraphStep(pr, h, expected) => DroppingShows(d, pr, h, expected, g);
  }

  /** A node the step stores under one of them joins the subgraph. */
  predicate Joins(d: Graph, s: Step, g: SubgraphId) {
    if Creates(d, s) then g in StoredNode(d, s).subgraphs
    else s.ReviewStep? && ReviewJoins(s.decisions, g)
  }

  /** The step takes a member away by storing another node under its id, and none it stores joins the subgraph. */
  predicate LosesUnseen(d: Graph, s: Step, g: SubgraphId) {
    !Joins(d, s, g) && exists id <- GeneratedIds(d, s) :: id in MembersOf(d, g)
  }

  lemma OtherStepShows(d: Graph, s: Step, g: SubgraphId)
    requires Sound(d) && Attempt(d, s).Done? && !Creates(d, s) && !s.ReviewStep? && g in d.subgraphs
    ensures SubgraphShows(d, Apply(d, s), g)
  {
    if SetsMembers(s) {
      SubgraphStepShows(d, s, g);
    } else {
      match s
      case CreateNodesStep(pr, expected, inputs) =>
        AddingShows(d, pr, inputs, g);
        assert MembersOf(AddInputs(d, pr, inputs).value, g) == MembersOf(Apply(d, s), g);
      case ProjectStep(pr, p) => ReprojectingShows(d, pr, p, g);
      case RegisterStep(_, _, _) => assert MembersOf(Apply(d, s), g) == MembersOf(d, g);
      case UpdateNodeStep(pr, id, expected, q) =>
        assert NodeOk(d, id);
        ReplacingShows(d, d.nodes[id].(node := UpdatedNode(d, id, q), revision := d.nodes[id].revision + 1), g);
      case DeleteNodeStep(pr, id, expected) => DeletingShows(d, pr, id, expected, g);
    }
  }

  lemma CreatingShowsIff(d: Graph, s: Step, g: SubgraphId)
    requires Creates(d, s) && g in d.subgraphs
    ensures SubgraphShows(d, Apply(d, s), g) <==> !LosesUnseen(d, s, g)
  {
    var n := StoredNode(d, s);
    StoringCounts(d, NodeRecord(n, 1, s.pr.project, d.nextSeq + 1), Apply(d, s), g);
    CountsShowIff(d, Apply(d, s), g, {n.id}, g in n.subgraphs);
    assert n.id in GeneratedIds(d, s);
  }

  lemma ReviewShowsIff(d: Graph, s: Step, g: SubgraphId)
    requires s.ReviewStep? && Attempt(d, s).Done? && g in d.subgraphs
    ensures g in Apply(d, s).subgraphs && (SubgraphShows(d, Apply(d, s), g) <==> !LosesUnseen(d, s, g))
  {
    var d' := ApplyDecisions(d, s.pr, s.decisions, s.sources);
    var ids := ReviewedIds(d.nextSeq, s.decisions);
    ReviewingCounts(d, s.pr, s.decisions, s.sources, g);
    CountsShowIff(d, d', g, ids, ReviewJoins(s.decisions, g));
    assert MembersOf(Apply(d, s), g) == MembersOf(d', g);
    assert GeneratedIds(d, s) == ids;
    assert ids !! MembersOf(d, g) <==> !exists id <- ids :: id in MembersOf(d, g);
  }

  /** A step shows in a subgraph's revision, counting forward and standing still only with its members, exactly
      unless it takes a member away by storing another node under the member's id. */
  lemma ReplacedMemberShowsIff(d: Graph, s: Step, g: SubgraphId)
    requires Sound(d) && g in d.subgraphs && g in Apply(d, s).subgraphs
    ensures SubgraphShows(d, Apply(d, s), g) <==> !LosesUnseen(d, s, g)
  {
    if Attempt(d, s).Done? {
      if Creates(d, s) {
        CreatingShowsIff(d, s, g);
      } else if s.ReviewStep? {
        ReviewShowsIff(d, s, g);
      } else {
        OtherStepShows(d, s, g);
      }
    }
  }

  /** No member's id is still to be generated. */
  ghost predicate MembersKnown(d: Graph, g: SubgraphId) {
    forall id <- MembersOf(d, g) :: NotAhead(d.nextSeq, id)
  }

  /** Nothing is lost from such a subgraph. */
  lemma KnownMembersStay(d: Graph, s: Step, g: SubgraphId)
    requires MembersKnown(d, g)
    ensures !LosesUnseen(d, s, g)
  {
    forall id | id in MembersOf(d, g) ensures id !in GeneratedIds(d, s) { KnownIsNotGenerated(d, s, id); }
  }

  /** Every mutation counts in the revision of each node whose text it changes, unless it stores another node under
      its id, and of each subgraph whose members it changes, unless it takes one away like that. */
  lemma StepShows(d: Graph, s: Step)
    requires Sound(d)
    ensures forall id {:trigger NodeShows(d, Apply(d, s), id)} | id !in GeneratedIds(d, s) ::
              NodeShows(d, Apply(d, s), id)
    ensures forall g {:trigger SubgraphShows(d, Apply(d, s), g)} | !LosesUnseen(d, s, g) ::
              SubgraphShows(d, Apply(d, s), g)
  {
    forall id | id !in GeneratedIds(d, s) ensures NodeShows(d, Apply(d, s), id) {
      if id in d.nodes && id in Apply(d, s).nodes { MovedUnseenIff(d, s, id); }
    }
    forall g | !LosesUnseen(d, s, g) ensures SubgraphShows(d, Apply(d, s), g) {
      if g in d.subgraphs && g in Apply(d, s).subgraphs { ReplacedMemberShowsIff(d, s, g); }
    }
  }

  ghost predicate KeepsSubgraph(d: Graph, steps: seq<Step>, g: SubgraphId)
    decreases |steps|
  {
    g in d.subgraphs && (steps == [] || KeepsSubgraph(Apply(d, steps[0]), steps[1..], g))
  }

  /** No step of the run takes a member away like that. */
  ghost predicate LosesNothing(d: Graph, steps: seq<Step>, g: SubgraphId)
    decreases |steps|
  {
    steps == [] || (!LosesUnseen(d, steps[0], g) && LosesNothing(Apply(d, steps[0]), steps[1..], g))
  }

  /** Over every run that keeps the subgraph and takes no member away by storing another node under its id, its
      revision never goes back, and the same revision means the same members. */
  lemma {:induction false} RevisionIdentifiesMembers(d: Graph, steps: seq<Step>, g: SubgraphId)
    requires Sound(d) && KeepsSubgraph(d, steps, g) && LosesNothing(d, steps, g)
    ensures g in After(d, steps).subgraphs && SubgraphShows(d, After(d, steps), g)
    decreases |steps|
  {
    if steps != [] {
      var d' := Apply(d, steps[0]);
      assert KeepsSubgraph(d', steps[1..], g);
      ReplacedMemberShowsIff(d, steps[0], g);
      StepKeepsSound(d, steps[0]);
      RevisionIdentifiesMembers(d', steps[1..], g);
    }
  }

  /** At every point of the run, no member's id is still to be generated. */
  ghost predicate StaysKnown(d: Graph, steps: seq<Step>, g: SubgraphId)
    decreases |steps|
  {
    MembersKnown(d, g) && (steps == [] || StaysKnown(Apply(d, steps[0]), steps[1..], g))
  }

  /** So it is over every run in which the members of this subgraph have ids not still to be generated, whatever ids
      callers choose elsewhere. */
  lemma {:induction false} KnownMembersLoseNothing(d: Graph, steps: seq<Step>, g: SubgraphId)
    requires StaysKnown(d, steps, g)
    ensures LosesNothing(d, steps, g)
    decreases |steps|
  {
    if steps != [] {
      KnownMembersStay(d, steps[0], g);
      KnownMembersLoseNothing(Apply(d, steps[0]), steps[1..], g);
    }
  }

  /** A member stored under the id that is generated next. */
  function Guest(pr: Principal): NodeInput {
    var n := Node(NodeSeq(2), "fact", "s", "accepted", {GeneralSeq(1)}, {"src"}, pr.actor);
    NodeInput(n, pr.actor, Named(""), {})
  }

  function HostRun(pr: Principal): seq<Step> {
    [CreateSubgraphStep(pr, "a", "", []), CreateNodesStep(pr, 2, [Guest(pr)])]
  }

  function Host(pr: Principal, revision: int): map<SubgraphId, SubgraphRecord> {
    map[GeneralSeq(1) := SubgraphRecord("a", "", revision, General, pr.project, "")]
  }

  lemma HostCreated(pr: Principal)
    ensures Apply(EMPTY, HostRun(pr)[0]) == EMPTY.(subgraphs := Host(pr, 1), revision := 2)
  {
    assert FirstFree(EMPTY.subgraphs, 1) == GeneralSeq(1);
    assert SetMembers(EMPTY.nodes, pr.project, GeneralSeq(1), UniqueNodes([])) == EMPTY.nodes;
  }

  lemma GuestAdded(pr: Principal)
    requires pr.actor != ""
    ensures AddInput(EMPTY.(subgraphs := Host(pr, 1), revision := 2), pr, Guest(pr))
         == Done(Graph(2, 1, map[NodeSeq(2) := NodeRecord(Guest(pr).node, 1, pr.project, 1)], Host(pr, 2), {},
                       map[], map[]))
  {
    var d, i := EMPTY.(subgraphs := Host(pr, 1), revision := 2), Guest(pr);
    assert Admissible(d, pr, i.node, i.creator);
    assert Bump(d.subgraphs, i.node.subgraphs) == Host(pr, 2);
    assert CreationEdges(Stored(d, NodeRecord(i.node, 1, pr.project, 1)), pr, i) == {};
  }

  lemma HostIs(pr: Principal)
    requires pr.actor != ""
    ensures var d := After(EMPTY, HostRun(pr));
            && d.subgraphs == Host(pr, 2) && d.nextSeq == 1
            && d.nodes == map[NodeSeq(2) := NodeRecord(Guest(pr).node, 1, pr.project, 1)]
  {
    var s, i := HostRun(pr), Guest(pr);
    var d1 := EMPTY.(subgraphs := Host(pr, 1), revision := 2);
    var d2 := AddInput(d1, pr, i).value;
    HostCreated(pr);
    GuestAdded(pr);
    assert AddInputs(d1, pr, [i]) == Done(d2) by {
      assert [i][1..] == [];
      assert AddInputs(d2, pr, []) == Done(d2);
    }
    var d3 := Apply(d1, s[1]);
    assert d3 == d2.(revision := d2.revision + 1);
    assert After(EMPTY, s) == d3 by {
      assert s[1..] == [s[1]] && [s[1]][1..] == [];
      assert After(d1, [s[1]]) == d3 by { assert After(d3, []) == d3; }
    }
  }

  /** After such a run a node created outside the subgraph takes its only member away, and the subgraph shows the
      same revision. */
  lemma MemberIsLostUnseen(pr: Principal, q: NodeRequest)
    requires pr.actor != "" && q.statement != "" && ValidKind(q.kind) && q.subgraphs == []
    requires UniqueTexts(q.sources) != {}
    ensures var d := After(EMPTY, HostRun(pr));
            var d' := Apply(d, CreateNodeStep(pr, q));
            && GeneralSeq(1) in d.subgraphs && GeneralSeq(1) in d'.subgraphs
            && d.subgraphs[GeneralSeq(1)].revision == d'.subgraphs[GeneralSeq(1)].revision
            && MembersOf(d, GeneralSeq(1)) == {NodeSeq(2)} && MembersOf(d', GeneralSeq(1)) == {}
  {
    HostIs(pr);
    var d := After(EMPTY, HostRun(pr));
    var n := NewNode(d, pr, q);
    assert n.subgraphs == {} && Admissible(d, pr, n, n.creator);
    assert Apply(d, CreateNodeStep(pr, q)).nodes == map[NodeSeq(2) := NodeRecord(n, 1, pr.project, 2)];
  }

  lemma JoinedStaysEditable(d: Graph, pr: Principal, id: NodeId, expected: int, g: SubgraphId, r: SubgraphRecord)
    requires Sound(d) && Editable(d, pr, id, expected)
    requires g !in d.subgraphs && r.kind == General && r.project == pr.project
    ensures var joined := WithMembers(d, g, r, {id});
            && Editable(joined, pr, id, expected)
            && var was := d.nodes[id];
               joined.nodes[id] == was.(node := was.node.(subgraphs := was.node.subgraphs + {g}))
  {
    var joined := WithMembers(d, g, r, {id});
    GeneralIsNotProjected(d, id);
    assert AllOfKind(joined, joined.nodes[id].node.subgraphs, General);
  }

  /** Joining a new subgraph does not show in a node's revision: an edit made against the node as it was before
      is still accepted after, and takes the membership away. */
  lemma MembershipDoesNotShow(d: Graph, pr: Principal, id: NodeId, q: NodeRequest, g: SubgraphId, r: SubgraphRecord)
    requires Sound(d) && id in d.nodes && UpdateNode(d, pr, id, d.nodes[id].revision, q).Done? && q.subgraphs == []
    requires g !in d.subgraphs && r.kind == General && r.project == pr.project
    ensures var joined := WithMembers(d, g, r, {id});
            && g in joined.nodes[id].node.subgraphs && joined.nodes[id].revision == d.nodes[id].revision
            && var edited := UpdateNode(joined, pr, id, d.nodes[id].revision, q);
               edited.Done? && id in edited.value.nodes && edited.value.nodes[id].node.subgraphs == {}
  {
    var joined := WithMembers(d, g, r, {id});
    JoinedStaysEditable(d, pr, id, d.nodes[id].revision, g, r);
    assert d.nodes[id].node.id == id by { assert NodeOk(d, id); }
    assert UniqueSubgraphs(q.subgraphs) == {};
    EditWithoutMemberships(d, joined, pr, id, q);
  }

  /** An edit that asks for no subgraphs is judged by the node alone. */
  lemma EditWithoutMemberships(d: Graph, d': Graph, pr: Principal, id: NodeId, q: NodeRequest)
    requires id in d.nodes && id in d'.nodes && UniqueSubgraphs(q.subgraphs) == {}
    requires TextOf(d.nodes[id].node) == TextOf(d'.nodes[id].node)
    ensures UpdatedNode(d', id, q) == UpdatedNode(d, id, q) && UpdatedNode(d, id, q).subgraphs == {}
    ensures Admissible(d', pr, UpdatedNode(d', id, q), d'.nodes[id].node.creator)
            <==> Admissible(d, pr, UpdatedNode(d, id, q), d.nodes[id].node.creator)
  {
    var a, b := TextOf(d.nodes[id].node), TextOf(d'.nodes[id].node);
    assert a.id == b.id && a.creator == b.creator;
  }

  /** The id of a deleted subgraph is given to the next one created, at revision one again, exactly when it is a
      generated one at or past the number of subgraphs there were, and all generated ids from there up to it are
      taken. */
  lemma DeletedIdIsNextIff(d: Graph, pr: Principal, g: SubgraphId, expected: int, other: Principal, name: string,
                           summary: string, members: seq<NodeId>)
    requires DeleteSubgraph(d, pr, g, expected).Done?
    requires CreateSubgraph(DeleteSubgraph(d, pr, g, expected).value, other, name, summary, members).Done?
    ensures var d' := CreateSubgraph(DeleteSubgraph(d, pr, g, expected).value, other, name, summary, members).value;
            && (g in d'.subgraphs ==> d'.subgraphs[g].revision == 1)
            && (g in d'.subgraphs <==>
                  && g.GeneralSeq? && g.n >= |d.subgraphs|
                  && forall k | |d.subgraphs| <= k < g.n :: GeneralSeq(k) in d.subgraphs)
  {
    var rest := DeleteSubgraph(d, pr, g, expected).value.subgraphs;
    assert |rest| + 1 == |d.subgraphs| by { assert rest.Keys == d.subgraphs.Keys - {g}; }
    var next := FirstFree(rest, |d.subgraphs|);
    forall k: nat ensures GeneralSeq(k) in rest <==> GeneralSeq(k) in d.subgraphs && GeneralSeq(k) != g {}
    if g.GeneralSeq? && next.n < g.n { assert GeneralSeq(next.n) !in d.subgraphs; }
  }

  /** The id of a deleted subgraph is given to the next one, at revision one again. */
  lemma SubgraphIdIsReused(pr: Principal)
    ensures var first := Apply(EMPTY, CreateSubgraphStep(pr, "a", "", []));
            var second := After(first, [DeleteSubgraphStep(pr, GeneralSeq(1), 1), CreateSubgraphStep(pr, "b", "", [])]);
            && GeneralSeq(1) in first.subgraphs && GeneralSeq(1) in second.subgraphs
            && first.subgraphs[GeneralSeq(1)].name == "a" && second.subgraphs[GeneralSeq(1)].name == "b"
            && first.subgraphs[GeneralSeq(1)].revision == second.subgraphs[GeneralSeq(1)].revision == 1
  {
    var first := Apply(EMPTY, CreateSubgraphStep(pr, "a", "", []));
    assert FirstFree(EMPTY.subgraphs, 1) == GeneralSeq(1);
    assert first.subgraphs.Keys == {GeneralSeq(1)};
    var steps := [DeleteSubgraphStep(pr, GeneralSeq(1), 1), CreateSubgraphStep(pr, "b", "", [])];
    var middle := Apply(first, steps[0]);
    assert middle.subgraphs == map[];
    var second := Apply(middle, steps[1]);
    assert FirstFree(middle.subgraphs, 1) == GeneralSeq(1);
    assert steps[1..] == [steps[1]] && [steps[1]][1..] == [];
    assert After(middle, steps[1..]) == second by { assert After(second, []) == second; }
  }
}
