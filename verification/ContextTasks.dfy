/** What belongs to a task is written by projections only. Curator operations and node batches never touch a
    task subgraph or a node in one; a review does exactly when a "create" decision names such a node.
 */
module ContextTasks {
  import opened ContextGraph
  import opened ContextGraphRuns

  function TaskSubgraphs(d: Graph): map<SubgraphId, SubgraphRecord> {
    map g | g in d.subgraphs && d.subgraphs[g].kind == Task :: d.subgraphs[g]
  }

  predicate IsTaskNode(d: Graph, id: NodeId) {
    id in d.nodes && HasTaskMembership(d.subgraphs, d.nodes[id].node.subgraphs)
  }

  function TaskNodes(d: Graph): map<NodeId, NodeRecord> {
    map id | id in d.nodes && IsTaskNode(d, id) :: d.nodes[id]
  }

  ghost predicate SameTasks(d: Graph, d': Graph) {
    TaskSubgraphs(d') == TaskSubgraphs(d) && TaskNodes(d') == TaskNodes(d)
  }

  /** The task parts agree when the subgraphs agree on tasks and every node of a task, before or after, is the
      same record. */
  lemma SameTasksFrom(d: Graph, d': Graph)
    requires forall g {:trigger g in d.subgraphs} {:trigger g in d'.subgraphs} ::
      (g in d.subgraphs && d.subgraphs[g].kind == Task) || (g in d'.subgraphs && d'.subgraphs[g].kind == Task)
      ==> g in d.subgraphs && g in d'.subgraphs && d.subgraphs[g] == d'.subgraphs[g]
    requires forall id {:trigger IsTaskNode(d, id)} {:trigger IsTaskNode(d', id)} ::
      IsTaskNode(d, id) || IsTaskNode(d', id) ==> id in d.nodes && id in d'.nodes && d.nodes[id] == d'.nodes[id]
    ensures SameTasks(d, d')
  {
    forall id ensures IsTaskNode(d, id) <==> IsTaskNode(d', id) {}
  }

  /** Every node of a task was projected: its memberships are all task ones. */
  lemma TaskNodeIsProjected(d: Graph, id: NodeId)
    requires Sound(d) && IsTaskNode(d, id)
    ensures id.TaskSeq? && id.n <= d.nextSeq
    ensures d.nodes[id].node.subgraphs != {} && AllOfKind(d, d.nodes[id].node.subgraphs, Task)
  {
    assert NodeOk(d, id);
  }

  /** Storing a general node under an id no task node has leaves tasks alone. */
  lemma StoringLeavesTasks(d: Graph, r: NodeRecord)
    requires Sound(d) && AllOfKind(d, r.node.subgraphs, General) && !IsTaskNode(d, r.node.id)
    ensures SameTasks(d, Stored(d, r))
  {
    var d' := Stored(d, r);
    forall id ensures IsTaskNode(d', id) <==> IsTaskNode(d, id) {
      if id in d.nodes && id != r.node.id { assert NodeOk(d, id); }
    }
    SameTasksFrom(d, d');
  }

  lemma CreateNodeLeavesTasks(d: Graph, pr: Principal, q: NodeRequest)
    requires Sound(d) && CreateNode(d, pr, q).Done?
    ensures SameTasks(d, CreateNode(d, pr, q).value)
  {
    var n := NewNode(d, pr, q);
    var r := NodeRecord(n, 1, pr.project, d.nextSeq + 1);
    if IsTaskNode(d, n.id) { TaskNodeIsProjected(d, n.id); }
    StoringLeavesTasks(d, r);
    RevisionLeavesTasks(Stored(d, r), CreateNode(d, pr, q).value);
  }

  lemma RevisionLeavesTasks(d: Graph, d': Graph)
    requires d'.nodes == d.nodes && d'.subgraphs == d.subgraphs
    ensures SameTasks(d, d')
  {
    forall id ensures IsTaskNode(d', id) <==> IsTaskNode(d, id) {}
  }

  lemma UpdateNodeLeavesTasks(d: Graph, pr: Principal, id: NodeId, expected: int, q: NodeRequest)
    requires Sound(d) && UpdateNode(d, pr, id, expected, q).Done?
    ensures SameTasks(d, UpdateNode(d, pr, id, expected, q).value)
  {
    var d' := UpdateNode(d, pr, id, expected, q).value;
    assert NodeOk(d, id);
    GeneralIsNotProjected(d, id);
    forall x ensures IsTaskNode(d', x) <==> IsTaskNode(d, x) {
      if x in d.nodes { assert NodeOk(d, x); }
    }
    SameTasksFrom(d, d');
  }

  lemma DeleteNodeLeavesTasks(d: Graph, pr: Principal, id: NodeId, expected: int)
    requires Sound(d) && DeleteNode(d, pr, id, expected).Done?
    ensures SameTasks(d, DeleteNode(d, pr, id, expected).value)
  {
    var d' := DeleteNode(d, pr, id, expected).value;
    GeneralIsNotProjected(d, id);
    forall x ensures IsTaskNode(d', x) <==> IsTaskNode(d, x) {
      if x in d.nodes { assert NodeOk(d, x); }
    }
    SameTasksFrom(d, d');
  }

  /** The membership loop walks over every node of the project, and leaves those of tasks as they are. */
  lemma WithMembersLeavesTasks(d: Graph, pr: Principal, g: SubgraphId, r: SubgraphRecord, w: set<NodeId>)
    requires Sound(d) && Writable(d, g, r) && r.project == pr.project && MembersAllowed(d, pr, w)
    ensures SameTasks(d, WithMembers(d, g, r, w))
  {
    var d' := WithMembers(d, g, r, w);
    WithMembersKeeps(d, pr, g, r, w);
    forall id
      ensures IsTaskNode(d', id) <==> IsTaskNode(d, id)
      ensures IsTaskNode(d, id) ==> d'.nodes[id] == d.nodes[id]
    {
      if IsTaskNode(d, id) {
        TaskNodeIsProjected(d, id);
        MembersNodeOk(d, pr, g, r, w, id);
      }
    }
    SameTasksFrom(d, d');
  }

  lemma DeleteSubgraphLeavesTasks(d: Graph, pr: Principal, g: SubgraphId, expected: int)
    requires Sound(d) && DeleteSubgraph(d, pr, g, expected).Done?
    ensures SameTasks(d, DeleteSubgraph(d, pr, g, expected).value)
  {
    var d' := DeleteSubgraph(d, pr, g, expected).value;
    DeleteSubgraphKeeps(d, pr, g, expected);
    forall id
      ensures IsTaskNode(d', id) <==> IsTaskNode(d, id)
      ensures IsTaskNode(d, id) ==> d'.nodes[id] == d.nodes[id]
    {
      if IsTaskNode(d, id) {
        TaskNodeIsProjected(d, id);
        DeleteSubgraphNodeOk(d, pr, g, expected, id);
      }
    }
    SameTasksFrom(d, d');
  }

  lemma {:induction false} AddInputsLeaveTasks(d: Graph, pr: Principal, inputs: seq<NodeInput>)
    requires Sound(d) && AddInputs(d, pr, inputs).Done?
    ensures SameTasks(d, AddInputs(d, pr, inputs).value)
    decreases |inputs|
  {
    if inputs != [] {
      var i := inputs[0];
      var d' := AddInput(d, pr, i).value;
      var r := NodeRecord(i.node, 1, pr.project, d.nextSeq + 1);
      StoringLeavesTasks(d, r);
      RevisionLeavesTasks(Stored(d, r), d');
      AddInputKeeps(d, pr, i);
      AddInputsLeaveTasks(d', pr, inputs[1..]);
    }
  }

  lemma CreateSubgraphLeavesTasks(d: Graph, pr: Principal, name: string, summary: string, members: seq<NodeId>)
    requires Sound(d) && CreateSubgraph(d, pr, name, summary, members).Done?
    ensures SameTasks(d, CreateSubgraph(d, pr, name, summary, members).value)
  {
    var g := FirstFree(d.subgraphs, |d.subgraphs| + 1);
    var r := SubgraphRecord(name, summary, 1, General, pr.project, "");
    assert CreateSubgraph(d, pr, name, summary, members).value == WithMembers(d, g, r, UniqueNodes(members));
    WithMembersLeavesTasks(d, pr, g, r, UniqueNodes(members));
  }

  lemma UpdateSubgraphLeavesTasks(d: Graph, pr: Principal, g: SubgraphId, expected: int, name: string,
                                  summary: string, members: seq<NodeId>)
    requires Sound(d) && UpdateSubgraph(d, pr, g, expected, name, summary, members).Done?
    ensures SameTasks(d, UpdateSubgraph(d, pr, g, expected, name, summary, members).value)
  {
    var r := d.subgraphs[g].(name := name, summary := summary, revision := d.subgraphs[g].revision + 1);
    assert UpdateSubgraph(d, pr, g, expected, name, summary, members).value
        == WithMembers(d, g, r, UniqueNodes(members));
    WithMembersLeavesTasks(d, pr, g, r, UniqueNodes(members));
  }

  lemma CreateNodesLeaveTasks(d: Graph, pr: Principal, expected: int, inputs: seq<NodeInput>)
    requires Sound(d) && CreateNodes(d, pr, expected, inputs).Done?
    ensures SameTasks(d, CreateNodes(d, pr, expected, inputs).value)
  {
    AddInputsLeaveTasks(d, pr, inputs);
    RevisionLeavesTasks(AddInputs(d, pr, inputs).value, CreateNodes(d, pr, expected, inputs).value);
  }

  /** No operation of the curator, and no batch of nodes, changes a task subgraph or a node in one. */
  lemma CuratorLeavesTasks(d: Graph, s: Step)
    requires Sound(d) && !s.RegisterStep? && !s.ProjectStep? && !s.ReviewStep?
    ensures SameTasks(d, Apply(d, s))
  {
    if Attempt(d, s).Done? {
      match s
      case CreateNodeStep(pr, q) => CreateNodeLeavesTasks(d, pr, q);
      case UpdateNodeStep(pr, id, expected, q) => UpdateNodeLeavesTasks(d, pr, id, expected, q);
      case DeleteNodeStep(pr, id, expected) => DeleteNodeLeavesTasks(d, pr, id, expected);
      case CreateSubgraphStep(pr, name, summary, members) => CreateSubgraphLeavesTasks(d, pr, name, summary, members);
      case UpdateSubgraphStep(pr, g, expected, name, summary, members) =>
        UpdateSubgraphLeavesTasks(d, pr, g, expected, name, summary, members);
      case DeleteSubgraphStep(pr, g, expected) => DeleteSubgraphLeavesTasks(d, pr, g, expected);
      case CreateNodesStep(pr, expected, inputs) => CreateNodesLeaveTasks(d, pr, expected, inputs);
    }
  }

  /** Nor does any run of them, from any reachable graph. */
  lemma {:induction false} CuratorRunLeavesTasks(d: Graph, steps: seq<Step>)
    requires Sound(d) && forall s <- steps :: !s.RegisterStep? && !s.ProjectStep? && !s.ReviewStep?
    ensures SameTasks(d, After(d, steps))
    decreases |steps|
  {
    if steps != [] {
      CuratorLeavesTasks(d, steps[0]);
      StepKeepsSound(d, steps[0]);
      CuratorRunLeavesTasks(Apply(d, steps[0]), steps[1..]);
    }
  }

  // ---------------------------------------------------------------------------------------
  // Reviews
  // ---------------------------------------------------------------------------------------

  /** The decision marks a node of a task. */
  predicate Hits(d: Graph, pr: Principal, x: Decision) {
    x.action != Reject && IsTaskNode(d, x.target) && d.nodes[x.target].project == pr.project
  }

  /** The same task nodes, none at a lower revision. */
  ghost predicate Advanced(d: Graph, d': Graph) {
    forall id {:trigger IsTaskNode(d, id)} {:trigger IsTaskNode(d', id)} ::
      && (IsTaskNode(d, id) <==> IsTaskNode(d', id))
      && (IsTaskNode(d, id) ==> d.nodes[id].project == d'.nodes[id].project)
      && (IsTaskNode(d, id) ==> d.nodes[id].revision <= d'.nodes[id].revision)
  }

  lemma SameIsAdvanced(d: Graph, d': Graph)
    requires SameTasks(d, d')
    ensures Advanced(d, d')
  {
    forall id ensures IsTaskNode(d, id) <==> IsTaskNode(d', id) {
      assert IsTaskNode(d, id) <==> id in TaskNodes(d);
      assert IsTaskNode(d', id) <==> id in TaskNodes(d');
    }
    forall id | IsTaskNode(d, id) ensures d.nodes[id] == d'.nodes[id] {
      assert TaskNodes(d)[id] == TaskNodes(d')[id];
    }
  }

  lemma MarkingMoves(d: Graph, pr: Principal, x: Decision)
    requires Sound(d) && x.action != Reject
    ensures Advanced(d, MarkTarget(d, pr, x))
    ensures Hits(d, pr, x) ==> d.nodes[x.target].revision < MarkTarget(d, pr, x).nodes[x.target].revision
    ensures !Hits(d, pr, x) ==> SameTasks(d, MarkTarget(d, pr, x))
  {
    var d' := MarkTarget(d, pr, x);
    forall id ensures IsTaskNode(d, id) <==> IsTaskNode(d', id) {}
    if Hits(d, pr, x) { TaskNodeIsProjected(d, x.target); }
  }

  lemma DecisionMoves(d: Graph, pr: Principal, x: Decision, sources: seq<string>)
    requires Sound(d) && (x.action == Reject || SubgraphsOpen(d, pr, x))
    ensures Advanced(d, ApplyDecision(d, pr, x, sources))
    ensures Hits(d, pr, x) ==> d.nodes[x.target].revision < ApplyDecision(d, pr, x, sources).nodes[x.target].revision
    ensures !Hits(d, pr, x) ==> SameTasks(d, ApplyDecision(d, pr, x, sources))
  {
    if x.action != Reject {
      var n := ReviewedNode(d, pr, x, sources);
      var r := NodeRecord(n, 1, pr.project, d.nextSeq + 1);
      GeneratedFits(d, pr, n);
      StoringKeepsIff(d, r);
      if IsTaskNode(d, n.id) { TaskNodeIsProjected(d, n.id); }
      StoringLeavesTasks(d, r);
      SameIsAdvanced(d, Stored(d, r));
      MarkingMoves(Stored(d, r), pr, x);
    }
  }

  lemma {:induction false} DecisionsMove(d: Graph, pr: Principal, xs: seq<Decision>, sources: seq<seq<string>>)
    requires Sound(d) && |xs| == |sources| && AllOpen(d, pr, xs)
    ensures Advanced(d, ApplyDecisions(d, pr, xs, sources))
    ensures forall x <- xs :: Hits(d, pr, x) ==>
              d.nodes[x.target].revision < ApplyDecisions(d, pr, xs, sources).nodes[x.target].revision
    ensures (forall x <- xs :: !Hits(d, pr, x)) ==> SameTasks(d, ApplyDecisions(d, pr, xs, sources))
    decreases |xs|
  {
    if xs != [] {
      var d' := ApplyDecision(d, pr, xs[0], sources[0]);
      assert xs[0] in xs;
      DecisionMoves(d, pr, xs[0], sources[0]);
      ApplyDecisionKeepsIff(d, pr, xs[0], sources[0]);
      ApplyDecisionFrame(d, pr, xs[0], sources[0]);
      StillOpen(d, d', pr, xs);
      forall x | x in xs[1..] ensures Hits(d, pr, x) <==> Hits(d', pr, x) {
        assert x in xs;
      }
      DecisionsMove(d', pr, xs[1..], sources[1..]);
      forall x | x in xs && Hits(d, pr, x)
        ensures d.nodes[x.target].revision < ApplyDecisions(d, pr, xs, sources).nodes[x.target].revision
      {
        assert x == xs[0] || x in xs[1..];
      }
    }
  }

  /** A review leaves tasks alone exactly when no "create" decision names a node of a task in the project: the
      target of a create decision is never checked, yet it is marked outdated. */
  lemma ReviewLeavesTasksIff(d: Graph, pr: Principal, xs: seq<Decision>, sources: seq<seq<string>>)
    requires Sound(d) && |xs| == |sources| && ReviewBatch(d, pr, xs, sources).Done?
    ensures SameTasks(d, ReviewBatch(d, pr, xs, sources).value)
            <==> forall x <- xs ::
                   x.action == Create && IsTaskNode(d, x.target) ==> d.nodes[x.target].project != pr.project
  {
    var d1, d2 := ApplyDecisions(d, pr, xs, sources), ReviewBatch(d, pr, xs, sources).value;
    assert AllOpen(d, pr, xs) by {
      forall x | x in xs ensures x.action == Reject || SubgraphsOpen(d, pr, x) { assert DecisionValid(d, pr, x); }
    }
    DecisionsMove(d, pr, xs, sources);
    RevisionLeavesTasks(d1, d2);
    if x :| x in xs && x.action == Create && IsTaskNode(d, x.target) && d.nodes[x.target].project == pr.project {
      assert Hits(d, pr, x);
      assert TaskNodes(d)[x.target].revision < TaskNodes(d1)[x.target].revision;
    } else {
      forall x | x in xs ensures !Hits(d, pr, x) { assert DecisionValid(d, pr, x); }
    }
  }

  function OneProjection(pr: Principal, task: TaskId): Projection {
    Projection("p", "1", "s", "fact", ["src"], [TaskSubgraphId(pr.project, task)], [task], true)
  }

  /** A graph in which one task has one projected node. */
  function OneTask(pr: Principal, task: TaskId): Graph {
    After(EMPTY, [RegisterStep(pr, task, true), ProjectStep(pr, OneProjection(pr, task))])
  }

  lemma OneTaskBound(pr: Principal, task: TaskId)
    requires task != ""
    ensures ProjectionBound(Apply(EMPTY, RegisterStep(pr, task, true)), pr, OneProjection(pr, task))
    ensures UniqueSubgraphs(OneProjection(pr, task).subgraphs) == {TaskSubgraphId(pr.project, task)}
  {
    var p, d := OneProjection(pr, task), Apply(EMPTY, RegisterStep(pr, task, true));
    var g := TaskSubgraphId(pr.project, task);
    assert g != NamedSubgraph("");
    assert d.subgraphs[g].kind == Task && d.bindings[TaskKey(pr.project, task)] == g;
    assert UniqueSubgraphs(p.subgraphs) == {g};
    assert (set t | t in p.recipients && TaskKey(pr.project, t) in d.bindings :: d.bindings[TaskKey(pr.project, t)])
        == {g};
  }

  lemma OneTaskIs(pr: Principal, task: TaskId)
    requires task != ""
    ensures IsTaskNode(OneTask(pr, task), TaskSeq(1)) && OneTask(pr, task).nodes[TaskSeq(1)].project == pr.project
    ensures Sound(OneTask(pr, task))
  {
    var p := OneProjection(pr, task);
    var steps := [RegisterStep(pr, task, true), ProjectStep(pr, p)];
    EveryReachableGraphIsSound(steps);
    OneTaskBound(pr, task);
    var d1 := Apply(EMPTY, steps[0]);
    var d2 := Apply(d1, steps[1]);
    assert TaskSubgraphId(pr.project, task) in d2.nodes[TaskSeq(1)].node.subgraphs;
    assert steps[1..] == [steps[1]] && [steps[1]][1..] == [];
    assert After(d1, [steps[1]]) == d2 by { assert After(d2, []) == d2; }
  }

  /** The review that creates a node and names the task's node as its target is accepted and changes it. */
  lemma CreateDecisionMarksTaskNode(pr: Principal, task: TaskId)
    requires task != ""
    ensures var x := Decision("c", Create, "s", "fact", [], TaskSeq(1));
            var r := ReviewBatch(OneTask(pr, task), pr, [x], [[]]);
            r.Done? && !SameTasks(OneTask(pr, task), r.value)
  {
    var x := Decision("c", Create, "s", "fact", [], TaskSeq(1));
    OneTaskIs(pr, task);
    assert x in [x];
    ReviewLeavesTasksIff(OneTask(pr, task), pr, [x], [[]]);
  }
}
