/** What subscribers are told of: every mutation but a review tells of each node whose text it changes in all the
    subgraphs the node is in. A review tells of the nodes it creates and says nothing of those it marks; exactly when
    that leaves a change untold is proved.
 */
module ContextNews {
  import opened ContextGraph
  import opened ContextGraphRuns
  import opened ContextRevisions
  import opened ContextDelivery
  import opened ContextReview
  import opened ContextStore

  /** The subgraphs an accepted step tells of, as the store publishes them. */
  function ToldOf(d: Graph, s: Step): set<SubgraphId> {
    match s
    case CreateNodeStep(_, q) => UniqueSubgraphs(q.subgraphs)
    case UpdateNodeStep(_, id, _, q) => MembershipsOf(d, id) + UniqueSubgraphs(q.subgraphs)
    case DeleteNodeStep(_, id, _) => MembershipsOf(d, id)
    case CreateSubgraphStep(_, _, _, _) => {FirstFree(d.subgraphs, |d.subgraphs| + 1)}
    case UpdateSubgraphStep(_, g, _, _, _, _) => {g}
    case DeleteSubgraphStep(_, g, _) => {g}
    case CreateNodesStep(_, _, inputs) => Touched(inputs)
    case RegisterStep(_, _, _) => {}
    case ProjectStep(pr, p) =>
      var k := ProjectionKey(pr.project, p.id);
      (if k in d.projections then MembershipsOf(d, d.projections[k]) else {}) + UniqueSubgraphs(p.subgraphs)
    case ReviewStep(_, xs, _) => ReviewTouched(Apply(d, s), Created(d.nextSeq, xs))
  }

  function MembershipsOf(d: Graph, id: NodeId): set<SubgraphId> {
    if id in d.nodes then d.nodes[id].node.subgraphs else {}
  }

  /** The node is new, or shows another revision or text. */
  predicate TextChanged(d: Graph, d': Graph, id: NodeId) {
    && id in d'.nodes
    && (id !in d.nodes || d.nodes[id].revision != d'.nodes[id].revision
        || TextOf(d.nodes[id].node) != TextOf(d'.nodes[id].node))
  }

  // ---------------------------------------------------------------------------------------
  // Every mutation but a review
  // ---------------------------------------------------------------------------------------

  lemma {:induction false} TouchedHas(inputs: seq<NodeInput>, i: NodeInput)
    requires i in inputs
    ensures i.node.subgraphs <= Touched(inputs)
  {
    var n := |inputs| - 1;
    if i in inputs[..n] {
      TouchedHas(inputs[..n], i);
    } else {
      assert inputs == inputs[..n] + [inputs[n]];
    }
  }

  /** A new node of a batch is one of its inputs. */
  lemma {:induction false} AddedIsInput(d: Graph, pr: Principal, inputs: seq<NodeInput>, id: NodeId)
    requires AddInputs(d, pr, inputs).Done? && id in AddInputs(d, pr, inputs).value.nodes && id !in d.nodes
    ensures AddInputs(d, pr, inputs).value.nodes[id].project == pr.project
    ensures exists i <- inputs :: AddInputs(d, pr, inputs).value.nodes[id].node == i.node
    decreases |inputs|
  {
    var d' := AddInput(d, pr, inputs[0]).value;
    if id in d'.nodes {
      AddingKeepsNode(d', pr, inputs[1..], id);
      assert inputs[0] in inputs;
    } else {
      AddedIsInput(d', pr, inputs[1..], id);
      var i :| i in inputs[1..] && AddInputs(d, pr, inputs).value.nodes[id].node == i.node;
      assert i in inputs;
    }
  }

  lemma BatchIsTold(d: Graph, pr: Principal, expected: int, inputs: seq<NodeInput>, id: NodeId)
    requires CreateNodes(d, pr, expected, inputs).Done?
    requires TextChanged(d, CreateNodes(d, pr, expected, inputs).value, id)
    ensures CreateNodes(d, pr, expected, inputs).value.nodes[id].project == pr.project
    ensures CreateNodes(d, pr, expected, inputs).value.nodes[id].node.subgraphs <= Touched(inputs)
  {
    if id in d.nodes { AddingKeepsNode(d, pr, inputs, id); }
    AddedIsInput(d, pr, inputs, id);
    var i :| i in inputs && AddInputs(d, pr, inputs).value.nodes[id].node == i.node;
    TouchedHas(inputs, i);
  }

  lemma ProjectionIsTold(d: Graph, pr: Principal, p: Projection, id: NodeId)
    requires Sound(d) && ProjectTaskContext(d, pr, p).Done?
    requires TextChanged(d, ProjectTaskContext(d, pr, p).value, id)
    ensures ProjectTaskContext(d, pr, p).value.nodes[id].project == pr.project
    ensures ProjectTaskContext(d, pr, p).value.nodes[id].node.subgraphs <= UniqueSubgraphs(p.subgraphs)
  {
    var k, d' := ProjectionKey(pr.project, p.id), ProjectTaskContext(d, pr, p).value;
    if k in d.projections {
      assert ProjectionOk(d, k) && NodeOk(d, d.projections[k]);
      assert d' == d || d' == Reprojected(d, d.nodes[d.projections[k]], p);
    }
  }

  /** A mutation other than a review tells of every node whose text it changes, in all its subgraphs. */
  lemma TextChangesAreTold(d: Graph, s: Step, id: NodeId)
    requires Sound(d) && !s.ReviewStep? && TextChanged(d, Apply(d, s), id)
    ensures Attempt(d, s).Done? && Apply(d, s).nodes[id].project == s.pr.project
    ensures Apply(d, s).nodes[id].node.subgraphs <= ToldOf(d, s)
  {
    match s
    case UpdateNodeStep(_, x, _, _) =>
      if x in d.nodes { assert NodeOk(d, x); }
    case CreateNodesStep(pr, expected, inputs) =>
      if Attempt(d, s).Done? { BatchIsTold(d, pr, expected, inputs, id); }
    case ProjectStep(pr, p) =>
      if Attempt(d, s).Done? { ProjectionIsTold(d, pr, p, id); }
    case _ =>
  }

  /** So every active subscription that has one of the node's subgraphs, sees it, and admits the event hears of it. */
  lemma SubscribersHear(d: Graph, s: Step, id: NodeId, g: SubgraphId, sub: Subscription, event: string, kind: string)
    requires Sound(d) && !s.ReviewStep? && TextChanged(d, Apply(d, s), id) && g in Apply(d, s).nodes[id].node.subgraphs
    requires sub.active && g in sub.subgraphs && (sub.kinds == {} || kind in sub.kinds)
    requires g in Apply(d, s).subgraphs ==> SubscriptionSees(sub, Apply(d, s).subgraphs[g])
    ensures Hears(sub, Apply(d, s).subgraphs, Event(s.pr.project, event, kind, ToldOf(d, s), Apply(d, s).revision))
  {
    var d' := Apply(d, s);
    TextChangesAreTold(d, s, id);
    StepKeepsSound(d, s);
    assert NodeOk(d', id);
    assert g in VisibleTouched(sub, d'.subgraphs, ToldOf(d, s));
  }

  // ---------------------------------------------------------------------------------------
  // Reviews
  // ---------------------------------------------------------------------------------------

  /** The decision marks a stored node of the project. */
  predicate Marks(d: Graph, pr: Principal, x: Decision, id: NodeId) {
    x.action != Reject && x.target == id && id != Named("") && id in d.nodes && d.nodes[id].project == pr.project
  }

  ghost predicate Marked(d: Graph, pr: Principal, xs: seq<Decision>, id: NodeId) {
    exists x <- xs :: Marks(d, pr, x, id)
  }

  /** A stored node a review does not replace keeps its place, and its revision counts whether it is marked. */
  ghost predicate CountsMarks(d: Graph, d': Graph, id: NodeId, marked: bool) {
    && id in d.nodes && id in d'.nodes && d'.nodes[id].project == d.nodes[id].project
    && d'.nodes[id].node.subgraphs == d.nodes[id].node.subgraphs
    && (if marked then d'.nodes[id].revision > d.nodes[id].revision else d'.nodes[id] == d.nodes[id])
  }

  lemma DecidingMarks(d: Graph, pr: Principal, x: Decision, sources: seq<string>, id: NodeId)
    requires id in d.nodes && (x.action == Reject || id != ReviewSeq(d.nextSeq + 1))
    ensures CountsMarks(d, ApplyDecision(d, pr, x, sources), id, Marks(d, pr, x, id))
  {
  }

  lemma MarkedOneMore(d: Graph, pr: Principal, xs: seq<Decision>, id: NodeId)
    requires xs != []
    ensures Marked(d, pr, xs, id) <==> Marks(d, pr, xs[0], id) || Marked(d, pr, xs[1..], id)
  {
    if x :| x in xs && Marks(d, pr, x, id) { assert x == xs[0] || x in xs[1..]; }
    if x :| x in xs[1..] && Marks(d, pr, x, id) { assert x in xs; }
    assert xs[0] in xs;
  }

  lemma {:induction false} ReviewingMarks(d: Graph, pr: Principal, xs: seq<Decision>, sources: seq<seq<string>>,
                                          id: NodeId)
    requires |xs| == |sources| && id in d.nodes && id !in ReviewedIds(d.nextSeq, xs)
    ensures CountsMarks(d, ApplyDecisions(d, pr, xs, sources), id, Marked(d, pr, xs, id))
    decreases |xs|
  {
    if xs != [] {
      var d' := ApplyDecision(d, pr, xs[0], sources[0]);
      DecidingMarks(d, pr, xs[0], sources[0], id);
      ReviewingMarks(d', pr, xs[1..], sources[1..], id);
      assert Marked(d', pr, xs[1..], id) <==> Marked(d, pr, xs[1..], id) by {
        forall x | x in xs[1..] ensures Marks(d', pr, x, id) <==> Marks(d, pr, x, id) {}
      }
      MarkedOneMore(d, pr, xs, id);
    }
  }

  /** Taking the first decision off instead of the last. */
  lemma {:induction false} CreatedFromFront(nextSeq: nat, xs: seq<Decision>)
    requires xs != []
    ensures Created(nextSeq, xs) == if xs[0].action == Reject then Created(nextSeq, xs[1..])
                                    else [ReviewSeq(nextSeq + 1)] + Created(nextSeq + 1, xs[1..])
    decreases |xs|
  {
    var n := |xs| - 1;
    if n > 0 {
      CreatedFromFront(nextSeq, xs[..n]);
      assert xs[..n][1..] == xs[1..][..n - 1] && xs[..n][0] == xs[0] && xs[1..][n - 1] == xs[n];
    } else {
      assert xs[1..] == [] && xs[..n] == [];
    }
  }

  lemma {:induction false} SameIds(nextSeq: nat, xs: seq<Decision>)
    ensures SetOf(Created(nextSeq, xs)) == ReviewedIds(nextSeq, xs)
    decreases |xs|
  {
    if xs != [] {
      CreatedFromFront(nextSeq, xs);
      SameIds(if xs[0].action == Reject then nextSeq else nextSeq + 1, xs[1..]);
    }
  }

  /** The review tells of a changed node in all its subgraphs. */
  predicate IsTold(d: Graph, s: Step, id: NodeId) {
    id in Apply(d, s).nodes && Apply(d, s).nodes[id].node.subgraphs <= ToldOf(d, s)
  }

  lemma CreatedAreTold(d: Graph, s: Step, id: NodeId)
    requires s.ReviewStep? && id in Apply(d, s).nodes && id in ReviewedIds(d.nextSeq, s.decisions)
    ensures IsTold(d, s, id)
  {
    SameIds(d.nextSeq, s.decisions);
    assert id in Created(d.nextSeq, s.decisions);
  }

  lemma ChangedByReview(d: Graph, s: Step, id: NodeId)
    requires s.ReviewStep? && Attempt(d, s).Done? && id !in ReviewedIds(d.nextSeq, s.decisions)
    ensures TextChanged(d, Apply(d, s), id) <==> Marked(d, s.pr, s.decisions, id)
    ensures id in d.nodes ==> id in Apply(d, s).nodes && MembershipsOf(Apply(d, s), id) == MembershipsOf(d, id)
  {
    if id in d.nodes {
      ReviewingMarks(d, s.pr, s.decisions, s.sources, id);
    } else {
      ReviewIds(d, s.pr, s.decisions, s.sources);
      SameIds(d.nextSeq, s.decisions);
    }
  }

  /** A review tells of every node whose text it changes exactly when each node it marks, and does not replace, has
      all its subgraphs among those of the nodes it creates. */
  lemma ReviewIsToldIff(d: Graph, s: Step)
    requires s.ReviewStep? && Attempt(d, s).Done?
    ensures (forall id | TextChanged(d, Apply(d, s), id) :: IsTold(d, s, id)) <==>
            forall x <- s.decisions ::
              Marks(d, s.pr, x, x.target) && x.target !in ReviewedIds(d.nextSeq, s.decisions) ==>
                MembershipsOf(d, x.target) <= ToldOf(d, s)
  {
    if forall id | TextChanged(d, Apply(d, s), id) :: IsTold(d, s, id) {
      forall x | x in s.decisions && Marks(d, s.pr, x, x.target) && x.target !in ReviewedIds(d.nextSeq, s.decisions)
        ensures MembershipsOf(d, x.target) <= ToldOf(d, s)
      {
        ChangedByReview(d, s, x.target);
        assert Marked(d, s.pr, s.decisions, x.target);
        assert IsTold(d, s, x.target);
      }
    } else {
      var id :| TextChanged(d, Apply(d, s), id) && !IsTold(d, s, id);
      if id in ReviewedIds(d.nextSeq, s.decisions) { CreatedAreTold(d, s, id); }
      ChangedByReview(d, s, id);
      var x :| x in s.decisions && Marks(d, s.pr, x, id);
    }
  }

  /** The review that disputes the member of a subgraph and puts its own node nowhere tells nobody. */
  lemma ReviewTellsNobody(pr: Principal)
    requires pr.actor != ""
    ensures var d, x := After(EMPTY, HostRun(pr)), Decision("c", Dispute, "s", "fact", [], NodeSeq(2));
            var s := ReviewStep(pr, [x], [[]]);
            && Attempt(d, s).Done? && TextChanged(d, Apply(d, s), NodeSeq(2))
            && MembershipsOf(Apply(d, s), NodeSeq(2)) == {GeneralSeq(1)} && ToldOf(d, s) == {}
  {
    var d, x := After(EMPTY, HostRun(pr)), Decision("c", Dispute, "s", "fact", [], NodeSeq(2));
    var s := ReviewStep(pr, [x], [[]]);
    HostIs(pr);
    assert GeneralSeq(1) in d.nodes[NodeSeq(2)].node.subgraphs && CanSeeSubgraph(pr, d.subgraphs[GeneralSeq(1)]);
    assert DecisionValid(d, pr, x);
    assert x in [x] && Marks(d, pr, x, NodeSeq(2));
    assert [x][1..] == [] && ReviewedIds(d.nextSeq, [x]) == {ReviewSeq(2)} by {
      assert ReviewedIds(d.nextSeq + 1, []) == {};
    }
    ChangedByReview(d, s, NodeSeq(2));
    ToldOfOne(d, s, x);
  }

  lemma ToldOfOne(d: Graph, s: Step, x: Decision)
    requires s.ReviewStep? && s.decisions == [x] && s.sources == [[]] && x.action != Reject && x.subgraphs == []
    requires Attempt(d, s).Done?
    ensures ToldOf(d, s) == {}
  {
    var d' := ApplyDecision(d, s.pr, x, []);
    assert [x][..0] == [] && [x][1..] == [] && s.sources[1..] == [];
    assert Created(d.nextSeq, [x]) == [ReviewSeq(d.nextSeq + 1)] by { assert Created(d.nextSeq, []) == []; }
    assert ApplyDecisions(d, s.pr, [x], s.sources) == d' by { assert ApplyDecisions(d', s.pr, [], []) == d'; }
    DecisionStores(d, s.pr, x, []);
    assert UniqueSubgraphs(x.subgraphs) == {};
  }
}
