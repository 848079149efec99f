/** The in-memory context store: each method works on local copies and writes the fields only when nothing can
    fail any more. Its loops are proved against the functions on values.
 */
module ContextStore {
  import opened ContextProjection
  import opened ContextGraph
  import opened ContextGraphRuns
  import opened ContextDelivery
  import DeliveryRuns = ContextDeliveryRuns
  import opened ContextReview
  import ReviewRuns = ContextReviewRuns
  import Ids

  // ---------------------------------------------------------------------------------------
  // Loops over the maps
  // ---------------------------------------------------------------------------------------

  /** Counts a change in each of the subgraphs. */
  method BumpAll(subgraphs: map<SubgraphId, SubgraphRecord>, ids: set<SubgraphId>)
    returns (out: map<SubgraphId, SubgraphRecord>)
    requires ids <= subgraphs.Keys
    ensures out == Bump(subgraphs, ids)
  {
    out := subgraphs;
    var todo := ids;
    while todo != {}
      invariant todo <= ids && out.Keys == subgraphs.Keys
      invariant forall g <- out ::
        out[g] == if g in ids - todo then subgraphs[g].(revision := subgraphs[g].revision + 1) else subgraphs[g]
      decreases |todo|
    {
      var g :| g in todo;
      out := out[g := out[g].(revision := out[g].revision + 1)];
      todo := todo - {g};
    }
  }

  predicate Meets(e: Edge, id: NodeId) {
    e.to == id || e.origin == FromNode(id)
  }

  method DropEdgesAt(edges: set<Edge>, id: NodeId) returns (out: set<Edge>)
    ensures out == set e | e in edges && e.to != id && e.origin != FromNode(id)
  {
    out := edges;
    var todo := edges;
    while todo != {}
      invariant todo <= edges
      invariant out == set e | e in edges && (e in todo || !Meets(e, id))
      decreases |todo|
    {
      var e :| e in todo;
      if Meets(e, id) { out := out - {e}; }
      todo := todo - {e};
    }
  }

  method DropEdgesFrom(edges: set<Edge>, g: SubgraphId) returns (out: set<Edge>)
    ensures out == set e | e in edges && e.origin != FromSubgraph(g)
  {
    out := edges;
    var todo := edges;
    while todo != {}
      invariant todo <= edges
      invariant out == set e | e in edges && (e in todo || e.origin != FromSubgraph(g))
      decreases |todo|
    {
      var e :| e in todo;
      if e.origin == FromSubgraph(g) { out := out - {e}; }
      todo := todo - {e};
    }
  }

  /** Adds the subgraph to wanted nodes that lack it and takes it from the project's other nodes that have it. */
  method SetGeneralMembers(nodes: map<NodeId, NodeRecord>, project: ProjectId, g: SubgraphId, wanted: set<NodeId>)
    returns (out: map<NodeId, NodeRecord>)
    ensures out == SetMembers(nodes, project, g, wanted)
  {
    out := nodes;
    ghost var full := SetMembers(nodes, project, g, wanted);
    var todo := nodes.Keys;
    while todo != {}
      invariant todo <= nodes.Keys && out.Keys == nodes.Keys
      invariant forall id <- nodes :: out[id] == if id in todo then nodes[id] else full[id]
      decreases |todo|
    {
      var id :| id in todo;
      var r := nodes[id];
      if r.project == project {
        var has := g in r.node.subgraphs;
        if id in wanted && !has {
          out := out[id := r.(node := r.node.(subgraphs := r.node.subgraphs + {g}))];
        } else if id !in wanted && has {
          out := out[id := r.(node := r.node.(subgraphs := r.node.subgraphs - {g}))];
        }
        assert id in wanted && has ==> r.node.subgraphs + {g} == r.node.subgraphs;
        assert id !in wanted && !has ==> r.node.subgraphs - {g} == r.node.subgraphs;
      }
      todo := todo - {id};
    }
  }

  method DropMember(nodes: map<NodeId, NodeRecord>, g: SubgraphId) returns (out: map<NodeId, NodeRecord>)
    ensures out == DropMembership(nodes, g)
  {
    out := nodes;
    ghost var full := DropMembership(nodes, g);
    var todo := nodes.Keys;
    while todo != {}
      invariant todo <= nodes.Keys && out.Keys == nodes.Keys
      invariant forall id <- nodes :: out[id] == if id in todo then nodes[id] else full[id]
      decreases |todo|
    {
      var id :| id in todo;
      var r := nodes[id];
      out := out[id := r.(node := r.node.(subgraphs := r.node.subgraphs - {g}))];
      todo := todo - {id};
    }
  }

  /** The first generated subgraph id that is free, counting up from one past the number of subgraphs. */
  method NextSubgraphId(subgraphs: map<SubgraphId, SubgraphRecord>) returns (g: SubgraphId)
    ensures g == FirstFree(subgraphs, |subgraphs| + 1)
    ensures g.GeneralSeq? && g.n > |subgraphs| && g !in subgraphs
    ensures forall k | |subgraphs| < k < g.n :: GeneralSeq(k) in subgraphs
  {
    var i: nat := |subgraphs| + 1;
    while GeneralSeq(i) in subgraphs
      invariant FirstFree(subgraphs, i) == FirstFree(subgraphs, |subgraphs| + 1)
      decreases |TakenFrom(subgraphs, i)|
    {
      assert TakenFrom(subgraphs, i) == TakenFrom(subgraphs, i + 1) + {GeneralSeq(i)};
      i := i + 1;
    }
    g := GeneralSeq(i);
  }

  method ExpireAll(subscriptions: map<nat, Subscription>, project: ProjectId, invocation: InvocationId)
    returns (out: map<nat, Subscription>)
    ensures out == Expired(subscriptions, project, invocation)
  {
    out := subscriptions;
    var todo := subscriptions.Keys;
    while todo != {}
      invariant todo <= subscriptions.Keys && out.Keys == subscriptions.Keys
      invariant forall id <- subscriptions ::
        out[id] == if id !in todo && Of(subscriptions[id], project, invocation) then subscriptions[id].(active := false)
                   else subscriptions[id]
      decreases |todo|
    {
      var id :| id in todo;
      if Of(subscriptions[id], project, invocation) { out := out[id := out[id].(active := false)]; }
      todo := todo - {id};
    }
  }

  /** An active initial subscription of the invocation, or zero. */
  method FindInitial(subscriptions: map<nat, Subscription>, pr: Principal) returns (found: nat)
    requires 0 !in subscriptions
    ensures found == 0 <==>
            forall s <- subscriptions ::
              subscriptions[s].source == Initial ==> !Of(subscriptions[s], pr.project, pr.invocation)
    ensures found != 0 ==>
      && found in subscriptions && subscriptions[found].source == Initial
      && Of(subscriptions[found], pr.project, pr.invocation)
  {
    var todo := subscriptions.Keys;
    while todo != {}
      invariant todo <= subscriptions.Keys
      invariant forall s <- subscriptions.Keys - todo ::
        subscriptions[s].source == Initial ==> !Of(subscriptions[s], pr.project, pr.invocation)
      decreases |todo|
    {
      var s :| s in todo;
      if subscriptions[s].source == Initial && Of(subscriptions[s], pr.project, pr.invocation) { return s; }
      todo := todo - {s};
    }
    return 0;
  }

  lemma EdgesOneMore(d: Graph, pr: Principal, ids: set<SubgraphId>, todo: set<SubgraphId>, g: SubgraphId, to: NodeId)
    requires g in todo && todo <= ids
    ensures SubgraphEdges(d, pr, ids - (todo - {g}), to) == SubgraphEdges(d, pr, ids - todo, to)
              + (if g in d.subgraphs && CanSeeSubgraph(pr, d.subgraphs[g])
                 then {Edge(FromSubgraph(g), to, "derives_from_subgraph")} else {})
  {
    assert ids - (todo - {g}) == (ids - todo) + {g};
  }

  method EdgesFromSubgraphs(d: Graph, pr: Principal, ids: set<SubgraphId>, to: NodeId) returns (edges: set<Edge>)
    ensures edges == SubgraphEdges(d, pr, ids, to)
  {
    edges := {};
    var todo := ids;
    while todo != {}
      invariant todo <= ids && edges == SubgraphEdges(d, pr, ids - todo, to)
      decreases |todo|
    {
      var g :| g in todo;
      EdgesOneMore(d, pr, ids, todo, g, to);
      if g in d.subgraphs && CanSeeSubgraph(pr, d.subgraphs[g]) {
        edges := edges + {Edge(FromSubgraph(g), to, "derives_from_subgraph")};
      }
      todo := todo - {g};
    }
    assert ids - todo == ids;
  }

  method AddOne(d: Graph, pr: Principal, i: NodeInput) returns (r: Outcome<Graph>)
    ensures r == AddInput(d, pr, i)
  {
    if !Admissible(d, pr, i.node, i.creator) || i.node.id in d.nodes { return Refused; }
    var bumped := BumpAll(d.subgraphs, i.node.subgraphs);
    var w := d.(nextSeq := d.nextSeq + 1,
                nodes := d.nodes[i.node.id := NodeRecord(i.node, 1, pr.project, d.nextSeq + 1)], subgraphs := bumped);
    var more := EdgesFromSubgraphs(w, pr, i.subscribed, i.node.id);
    if LinksPrevious(w, pr, i) { more := more + {Edge(FromNode(i.previous), i.node.id, "logical_adjacent")}; }
    assert more == CreationEdges(w, pr, i);
    r := Done(w.(edges := w.edges + more));
  }

  function Touched(inputs: seq<NodeInput>): set<SubgraphId> {
    if inputs == [] then {} else Touched(inputs[..|inputs| - 1]) + inputs[|inputs| - 1].node.subgraphs
  }

  /** Adds the nodes of a batch to a working copy; the first that is refused refuses them all. */
  method AddAll(d: Graph, pr: Principal, inputs: seq<NodeInput>) returns (r: Outcome<Graph>, touched: set<SubgraphId>)
    ensures r == AddInputs(d, pr, inputs) && (r.Done? ==> touched == Touched(inputs))
  {
    var w := d;
    touched := {};
    for k := 0 to |inputs|
      invariant AddInputs(d, pr, inputs) == AddInputs(w, pr, inputs[k..])
      invariant touched == Touched(inputs[..k])
    {
      var next := AddOne(w, pr, inputs[k]);
      assert inputs[k..][1..] == inputs[k + 1..];
      if next.Refused? { return Refused, {}; }
      w, touched := next.value, touched + inputs[k].node.subgraphs;
      assert inputs[..k + 1][..k] == inputs[..k];
    }
    assert inputs[..|inputs|] == inputs;
    r := Done(w);
  }

  // ---------------------------------------------------------------------------------------
  // Mutations of a working copy
  // ---------------------------------------------------------------------------------------

  method CreateNodeIn(d: Graph, pr: Principal, q: NodeRequest) returns (r: Outcome<Graph>)
    ensures r == ContextGraph.CreateNode(d, pr, q)
  {
    var n := NewNode(d, pr, q);
    if !Admissible(d, pr, n, n.creator) { return Refused; }
    var bumped := BumpAll(d.subgraphs, n.subgraphs);
    r := Done(d.(nextSeq := d.nextSeq + 1,
                 nodes := d.nodes[n.id := NodeRecord(n, 1, pr.project, d.nextSeq + 1)],
                 subgraphs := bumped, revision := d.revision + 1));
  }

  method UpdateNodeIn(d: Graph, pr: Principal, id: NodeId, expected: int, q: NodeRequest) returns (r: Outcome<Graph>)
    requires Sound(d)
    ensures r == ContextGraph.UpdateNode(d, pr, id, expected, q)
  {
    if !Editable(d, pr, id, expected) { return Refused; }
    assert NodeOk(d, id);
    var record := d.nodes[id];
    var n := UpdatedNode(d, id, q);
    if !Admissible(d, pr, n, record.node.creator) { return Refused; }
    var bumped := BumpAll(d.subgraphs, Changed(record.node.subgraphs, n.subgraphs));
    r := Done(d.(nodes := d.nodes[n.id := record.(node := n, revision := record.revision + 1)],
                 subgraphs := bumped, revision := d.revision + 1));
  }

  method DeleteNodeIn(d: Graph, pr: Principal, id: NodeId, expected: int) returns (r: Outcome<Graph>)
    requires Sound(d)
    ensures r == ContextGraph.DeleteNode(d, pr, id, expected)
  {
    if !Editable(d, pr, id, expected) { return Refused; }
    assert NodeOk(d, id);
    var left := DropEdgesAt(d.edges, id);
    var bumped := BumpAll(d.subgraphs, d.nodes[id].node.subgraphs);
    r := Done(d.(nodes := d.nodes - {id}, edges := left, subgraphs := bumped, revision := d.revision + 1));
  }

  method CreateSubgraphIn(d: Graph, pr: Principal, name: string, summary: string, members: seq<NodeId>)
    returns (r: Outcome<Graph>, g: SubgraphId)
    ensures r == ContextGraph.CreateSubgraph(d, pr, name, summary, members)
    ensures g == FirstFree(d.subgraphs, |d.subgraphs| + 1)
  {
    g := NextSubgraphId(d.subgraphs);
    var wanted := UniqueNodes(members);
    if name == "" || !MembersAllowed(d, pr, wanted) { return Refused, g; }
    var nodes := SetGeneralMembers(d.nodes, pr.project, g, wanted);
    r := Done(d.(subgraphs := d.subgraphs[g := SubgraphRecord(name, summary, 1, General, pr.project, "")],
                 nodes := nodes, revision := d.revision + 1));
  }

  method UpdateSubgraphIn(d: Graph, pr: Principal, g: SubgraphId, expected: int, name: string, summary: string,
                          members: seq<NodeId>) returns (r: Outcome<Graph>)
    ensures r == ContextGraph.UpdateSubgraph(d, pr, g, expected, name, summary, members)
  {
    var wanted := UniqueNodes(members);
    if !SubgraphEditable(d, pr, g, expected) || !MembersAllowed(d, pr, wanted) { return Refused; }
    var record := d.subgraphs[g];
    var nodes := SetGeneralMembers(d.nodes, pr.project, g, wanted);
    var record' := record.(name := name, summary := summary, revision := record.revision + 1);
    r := Done(d.(subgraphs := d.subgraphs[g := record'], nodes := nodes, revision := d.revision + 1));
  }

  method DeleteSubgraphIn(d: Graph, pr: Principal, g: SubgraphId, expected: int) returns (r: Outcome<Graph>)
    ensures r == ContextGraph.DeleteSubgraph(d, pr, g, expected)
  {
    if !SubgraphEditable(d, pr, g, expected) { return Refused; }
    var nodes := DropMember(d.nodes, g);
    var left := DropEdgesFrom(d.edges, g);
    r := Done(d.(subgraphs := d.subgraphs - {g}, nodes := nodes, edges := left, revision := d.revision + 1));
  }

  method CreateNodesIn(d: Graph, pr: Principal, expected: int, inputs: seq<NodeInput>)
    returns (r: Outcome<Graph>, touched: set<SubgraphId>)
    requires Sound(d)
    ensures r == ContextGraph.CreateNodes(d, pr, expected, inputs) && (r.Done? ==> touched == Touched(inputs))
    ensures r.Done? ==> Sound(r.value)
  {
    if !RevisionMatches(expected, d.revision) { return Refused, {}; }
    r, touched := AddAll(d, pr, inputs);
    if r.Done? {
      CreateNodesKeeps(d, pr, expected, inputs);
      r := Done(r.value.(revision := r.value.revision + 1));
    }
  }

  /** Projects a statement into the task subgraphs of its recipients, as a new node or a newer version. A
      projection that brings nothing new is accepted and changes nothing. */
  method ProjectTaskContextIn(d: Graph, pr: Principal, p: Projection)
    returns (r: Outcome<Graph>, changed: bool, touched: set<SubgraphId>)
    requires Sound(d)
    ensures r == ContextGraph.ProjectTaskContext(d, pr, p) && (r.Done? ==> Sound(r.value))
    ensures r.Done? ==> Projects(d, pr, p, r.value, changed, touched)
  {
    var k := ProjectionKey(pr.project, p.id);
    if !ProjectionBound(d, pr, p) { return Refused, false, {}; }
    if k in d.projections {
      var id := d.projections[k];
      assert ProjectionOk(d, k) && NodeOk(d, id);
      var freshness := FreshnessOf(p.revision, d.nodes[id].node.sources);
      if freshness == StaleOrUnreadable { return Refused, false, {}; }
      if freshness == Same { return Done(d), false, {}; }
      var d' := ReprojectIn(d, d.nodes[id], p);
      r, changed, touched := Done(d'), true, d.nodes[id].node.subgraphs + UniqueSubgraphs(p.subgraphs);
    } else {
      var d' := ProjectNewIn(d, pr, p);
      r, changed, touched := Done(d'), true, UniqueSubgraphs(p.subgraphs);
    }
    ProjectKeepsIff(d, pr, p);
  }

  /** What an accepted projection changes, and whom it concerns: nobody if it is not newer than the stored one, and
      otherwise the subgraphs the stored one was in and those the new one is in. */
  predicate Projects(d: Graph, pr: Principal, p: Projection, d': Graph, changed: bool, touched: set<SubgraphId>) {
    var k := ProjectionKey(pr.project, p.id);
    if k !in d.projections then changed && touched == UniqueSubgraphs(p.subgraphs)
    else
      && d.projections[k] in d.nodes
      && (changed <==> FreshnessOf(p.revision, d.nodes[d.projections[k]].node.sources) == Newer)
      && (if changed then touched == d.nodes[d.projections[k]].node.subgraphs + UniqueSubgraphs(p.subgraphs)
          else d' == d)
  }

  method ReprojectIn(d: Graph, record: NodeRecord, p: Projection) returns (d': Graph)
    requires record.node.subgraphs <= d.subgraphs.Keys && UniqueSubgraphs(p.subgraphs) <= d.subgraphs.Keys
    ensures d' == Reprojected(d, record, p)
  {
    var n := ProjectedNode(record.node.id, record.node.creator, p);
    var bumped := BumpAll(d.subgraphs, Changed(record.node.subgraphs, n.subgraphs));
    d' := d.(nodes := d.nodes[n.id := record.(node := n, revision := record.revision + 1)],
             subgraphs := bumped, revision := d.revision + 1);
  }

  method ProjectNewIn(d: Graph, pr: Principal, p: Projection) returns (d': Graph)
    requires ProjectionBound(d, pr, p) && ProjectionKey(pr.project, p.id) !in d.projections
    ensures Done(d') == ContextGraph.ProjectTaskContext(d, pr, p)
  {
    var n := ProjectedNode(TaskSeq(d.nextSeq + 1), pr.actor, p);
    var bumped := BumpAll(d.subgraphs, n.subgraphs);
    d' := d.(nextSeq := d.nextSeq + 1,
             nodes := d.nodes[n.id := NodeRecord(n, 1, pr.project, d.nextSeq + 1)],
             projections := d.projections[ProjectionKey(pr.project, p.id) := n.id],
             subgraphs := bumped, revision := d.revision + 1);
  }

  method RegisterTaskSubgraphIn(d: Graph, pr: Principal, task: TaskId, taskExists: bool) returns (r: Outcome<Graph>)
    ensures r == ContextGraph.RegisterTaskSubgraph(d, pr, task, taskExists)
  {
    var t := if task == "" then pr.task else task;
    if t == "" || !taskExists { return Refused; }
    var k := TaskKey(pr.project, t);
    if k in d.bindings { return Done(d); }
    var g := TaskSubgraphId(pr.project, t);
    if g in d.subgraphs { return Refused; }
    r := Done(d.(bindings := d.bindings[k := g], revision := d.revision + 1,
                 subgraphs := d.subgraphs[g := SubgraphRecord(t, "task context", 1, Task, pr.project, t)]));
  }

  /** The stored receipt, a refusal, or the settled batch. */
  method ReviewIn(m: Memory, d: Graph, pr: Principal, decisions: seq<Decision>)
    returns (r: Outcome<Receipt>, d': Graph, m': Memory)
    requires Sound(d) && ReviewRuns.Inv(m)
    ensures (r, d', m') == ContextReview.SubmitReview(m, d, pr, decisions)
    ensures Sound(d') && (if m'.states == m.states then d' == d && m' == m else r.Done?)
  {
    r, d', m' := Refused, d, m;
    if pr.task == "" { return; }
    var k := TaskKey(pr.project, pr.task);
    assert ReviewRuns.MemoryOk(m, k);
    if k in m.states && m.states[k] == Reviewed { return Done(m.receipts[k]), d, m; }
    if k !in m.states || m.states[k] != Frozen { return; }
    var batch := if k in m.candidates then m.candidates[k] else [];
    var s := ReviewFrozenBatch(d, pr, batch, decisions);
    if s.Refused? { return; }
    SettlingKeepsSound(d, pr, batch, decisions);
    r, d' := Done(s.value.1), s.value.0;
    m' := m.(states := m.states[k := Reviewed], receipts := m.receipts[k := s.value.1]);
    assert m'.states[k] != m.states[k];
  }

  /** The first slice of an invocation is stored with its subscription. */
  lemma InitialSliceKeeps(v: Delivery, d: Graph, pr: Principal, ids: seq<SubgraphId>, nodes: seq<Node>, v': Delivery)
    requires DeliveryRuns.Inv(v) && v' == DeliveryRuns.EnsureInitialSlice(v, d, pr, ids, nodes).1
    ensures DeliveryRuns.Inv(v')
  {
    var q := DeliveryRuns.InitialRequest(pr, ids);
    if DeliveryRuns.KeyOf(pr) !in v.slices && Subscribable(d, pr, q) {
      DeliveryRuns.SubscribingKeeps(v, v', NewSubscription(pr, q));
    }
  }

  /** Stores a subscription of any source under the next id. */
  method CreateSubscription(v: Delivery, d: Graph, pr: Principal, q: SubscribeRequest)
    returns (r: Outcome<Delivery>, id: nat)
    requires Counted(v.subscriptions)
    ensures r == ContextDelivery.Subscribe(v, d, pr, q) && (r.Done? ==> id == |v.subscriptions| + 1)
  {
    if !Subscribable(d, pr, q) { return Refused, 0; }
    CountOneMore(v.subscriptions, NewSubscription(pr, q));
    id := FreshSubscriptionId(v.subscriptions);
    r := Done(v.(subscriptions := v.subscriptions[id := NewSubscription(pr, q)]));
  }

  /** The stored first slice, or a new one. The search for an initial subscription without a slice finds none,
      because the two are always stored together. */
  method InitialSliceIn(v: Delivery, d: Graph, pr: Principal, ids: seq<SubgraphId>)
    returns (r: Outcome<Slice>, v': Delivery)
    requires Sound(d) && DeliveryRuns.Inv(v)
    ensures (r, v') == DeliveryRuns.EnsureInitialSlice(v, d, pr, ids, if r.Done? then r.value.nodes else [])
    ensures DeliveryRuns.Inv(v') && v' == v.(subscriptions := v'.subscriptions, slices := v'.slices)
    ensures r.Done? && DeliveryRuns.KeyOf(pr) !in v.slices
            ==> SlicesTo(d, Effective(d, v'.subscriptions, pr, pr.invocation), r.value.nodes)
  {
    var key := InvocationKey(pr.project, pr.invocation);
    if key in v.slices { return Done(v.slices[key]), v; }
    var id := FindInitial(v.subscriptions, pr);
    v' := v;
    if id == 0 {
      var sub, next := CreateSubscription(v, d, pr, DeliveryRuns.InitialRequest(pr, ids));
      if sub.Refused? { return Refused, v; }
      v', id := sub.value, next;
    }
    var slice := MaterializeSlice(d, v'.subscriptions, pr, pr.invocation);
    slice := slice.(subscriptions := {id});
    v' := v'.(slices := v'.slices[key := slice]);
    InitialSliceKeeps(v, d, pr, ids, slice.nodes, v');
    r := Done(slice);
  }

  // ---------------------------------------------------------------------------------------
  // The store
  // ---------------------------------------------------------------------------------------

  function OutboxText(n: nat): string {
    "outbox-" + Ids.Digits(n)
  }

  class MemoryStore {
    var graphRevision: int
    var nextSeq: nat
    var nodes: map<NodeId, NodeRecord>
    var subgraphs: map<SubgraphId, SubgraphRecord>
    var edges: set<Edge>
    var taskBindings: map<TaskKey, SubgraphId>
    var projections: map<ProjectionKey, NodeId>
    var subscriptions: map<nat, Subscription>
    var deltas: map<nat, Delta>
    var deltaAck: set<nat>
    var initialSlices: map<InvocationKey, Slice>
    var candidates: map<TaskKey, seq<Candidate>>
    var taskMemory: map<TaskKey, MemoryState>
    var reviewReceipts: map<TaskKey, Receipt>
    var outbox: nat

    function Data(): Graph
      reads this
    {
      Graph(graphRevision, nextSeq, nodes, subgraphs, edges, taskBindings, projections)
    }

    function Delivered(): Delivery
      reads this
    {
      Delivery(subscriptions, deltas, deltaAck, initialSlices)
    }

    function Remembered(): Memory
      reads this
    {
      Memory(candidates, taskMemory, reviewReceipts)
    }

    /** What the runs of the three parts keep, and so every method. */
    ghost predicate Valid()
      reads this
    {
      Sound(Data()) && DeliveryRuns.Inv(Delivered()) && ReviewRuns.Inv(Remembered())
    }

    constructor ()
      ensures Valid()
      ensures Data() == EMPTY && Delivered() == ContextDelivery.NOTHING && Remembered() == ReviewRuns.NOTHING
    {
      graphRevision, nextSeq, outbox := 1, 0, 0;
      nodes, subgraphs, edges, taskBindings, projections := map[], map[], {}, map[], map[];
      subscriptions, deltas, deltaAck, initialSlices := map[], map[], {}, map[];
      candidates, taskMemory, reviewReceipts := map[], map[], map[];
    }

    function EventNow(project: ProjectId, kind: string, touched: set<SubgraphId>): Event
      reads this
    {
      Event(project, OutboxText(outbox), kind, touched, graphRevision)
    }

    /** Since the old state, the last outbox event of the given number was told to exactly its audience. */
    twostate predicate Told(new project: ProjectId, new kind: string, new touched: set<SubgraphId>)
      reads this
    {
      && subscriptions == old(subscriptions)
      && FansOut(old(deltas), deltas, subscriptions, subgraphs, EventNow(project, kind, touched))
    }

    method Assign(d: Graph)
      modifies `nextSeq, `nodes, `subgraphs, `edges, `taskBindings, `projections, `graphRevision
      ensures Data() == d
    {
      graphRevision, nextSeq, nodes, subgraphs := d.revision, d.nextSeq, d.nodes, d.subgraphs;
      edges, taskBindings, projections := d.edges, d.bindings, d.projections;
    }

    /** Puts a working copy of the graph in place. */
    method ReplaceData(d: Graph)
      requires Valid() && Sound(d)
      modifies `nextSeq, `nodes, `subgraphs, `edges, `taskBindings, `projections, `graphRevision
      ensures Valid() && Data() == d
    {
      Assign(d);
      assert Data() == d && Delivered() == old(Delivered()) && Remembered() == old(Remembered());
    }

    method ReplaceDelivery(v: Delivery)
      requires Valid() && DeliveryRuns.Inv(v) && v == Delivered().(subscriptions := v.subscriptions, slices := v.slices)
      modifies `subscriptions, `initialSlices
      ensures Valid() && Delivered() == v
    {
      subscriptions, initialSlices := v.subscriptions, v.slices;
      assert Data() == old(Data()) && Delivered() == v && Remembered() == old(Remembered());
    }

    method ReplaceMemory(m: Memory)
      requires Valid() && ReviewRuns.Inv(m)
      modifies `candidates, `taskMemory, `reviewReceipts
      ensures Valid() && Remembered() == m
    {
      candidates, taskMemory, reviewReceipts := m.candidates, m.states, m.receipts;
      assert Data() == old(Data()) && Delivered() == old(Delivered()) && Remembered() == m;
    }

    /** Fans the change the store has just made out to the subscriptions. */
    method Publish(project: ProjectId, kind: string, touched: set<SubgraphId>, events: nat)
      requires Counted(deltas)
      modifies `deltas, `outbox
      ensures outbox == old(outbox) + events && Told(project, kind, touched) && Counted(deltas)
    {
      outbox := outbox + events;
      var e := EventNow(project, kind, touched);
      var told := FanOut(deltas, subscriptions, subgraphs, e);
      FanOutKeeps(deltas, told, subscriptions, subgraphs, e);
      deltas := told;
    }

    /** Puts a working copy in place and tells the subscriptions. */
    method Commit(d: Graph, project: ProjectId, kind: string, touched: set<SubgraphId>, events: nat)
      requires Valid() && Sound(d)
      modifies `nextSeq, `nodes, `subgraphs, `edges, `taskBindings, `projections, `graphRevision, `deltas, `outbox
      ensures Valid()
      ensures Data() == d && outbox == old(outbox) + events && Told(project, kind, touched)
    {
      ghost var before := Delivered();
      ReplaceData(d);
      Publish(project, kind, touched, events);
      DeliveryRuns.TellingKeeps(before, deltas);
      assert Data() == d && Delivered() == before.(deltas := deltas) && Remembered() == old(Remembered());
    }

    method CreateNode(pr: Principal, q: NodeRequest) returns (r: Outcome<NodeId>)
      requires Valid()
      modifies `nextSeq, `nodes, `subgraphs, `edges, `taskBindings, `projections, `graphRevision, `deltas, `outbox
      ensures Valid()
      ensures r.Done? <==> ContextGraph.CreateNode(old(Data()), pr, q).Done?
      ensures r.Refused? ==> Data() == old(Data()) && deltas == old(deltas) && outbox == old(outbox)
      ensures r.Done? ==> Data() == ContextGraph.CreateNode(old(Data()), pr, q).value && outbox == old(outbox) + 1
      ensures r.Done? ==> r.value == NodeSeq(old(nextSeq) + 1)
      ensures r.Done? ==> Told(pr.project, "context.node.created", UniqueSubgraphs(q.subgraphs))
    {
      var w := CreateNodeIn(Data(), pr, q);
      if w.Refused? { return Refused; }
      StepKeepsSound(Data(), CreateNodeStep(pr, q));
      Commit(w.value, pr.project, "context.node.created", UniqueSubgraphs(q.subgraphs), 1);
      r := Done(NodeSeq(nextSeq));
    }

    method UpdateNode(pr: Principal, id: NodeId, expected: int, q: NodeRequest) returns (r: Outcome<NodeId>)
      requires Valid()
      modifies `nextSeq, `nodes, `subgraphs, `edges, `taskBindings, `projections, `graphRevision, `deltas, `outbox
      ensures Valid()
      ensures r.Done? <==> ContextGraph.UpdateNode(old(Data()), pr, id, expected, q).Done?
      ensures r.Refused? ==> Data() == old(Data()) && deltas == old(deltas) && outbox == old(outbox)
      ensures r.Done? ==> Data() == ContextGraph.UpdateNode(old(Data()), pr, id, expected, q).value
      ensures r.Done? ==> r.value == id && outbox == old(outbox) + 1
      ensures r.Done? ==> Told(pr.project, "context.node.updated",
                               old(nodes[id].node.subgraphs) + UniqueSubgraphs(q.subgraphs))
    {
      var w := UpdateNodeIn(Data(), pr, id, expected, q);
      if w.Refused? { return Refused; }
      StepKeepsSound(Data(), UpdateNodeStep(pr, id, expected, q));
      Commit(w.value, pr.project, "context.node.updated", nodes[id].node.subgraphs + UniqueSubgraphs(q.subgraphs), 1);
      r := Done(id);
    }

    method DeleteNode(pr: Principal, id: NodeId, expected: int) returns (ok: bool)
      requires Valid()
      modifies `nextSeq, `nodes, `subgraphs, `edges, `taskBindings, `projections, `graphRevision, `deltas, `outbox
      ensures Valid()
      ensures ok <==> ContextGraph.DeleteNode(old(Data()), pr, id, expected).Done?
      ensures !ok ==> Data() == old(Data()) && deltas == old(deltas) && outbox == old(outbox)
      ensures ok ==> Data() == ContextGraph.DeleteNode(old(Data()), pr, id, expected).value && outbox == old(outbox) + 1
      ensures ok ==> Told(pr.project, "context.node.deleted", old(nodes[id].node.subgraphs))
    {
      var w := DeleteNodeIn(Data(), pr, id, expected);
      if w.Refused? { return false; }
      StepKeepsSound(Data(), DeleteNodeStep(pr, id, expected));
      Commit(w.value, pr.project, "context.node.deleted", nodes[id].node.subgraphs, 1);
      ok := true;
    }

    method CreateSubgraph(pr: Principal, name: string, summary: string, members: seq<NodeId>)
      returns (r: Outcome<SubgraphId>)
      requires Valid()
      modifies `nextSeq, `nodes, `subgraphs, `edges, `taskBindings, `projections, `graphRevision, `deltas, `outbox
      ensures Valid()
      ensures r.Done? <==> ContextGraph.CreateSubgraph(old(Data()), pr, name, summary, members).Done?
      ensures r.Refused? ==> Data() == old(Data()) && deltas == old(deltas) && outbox == old(outbox)
      ensures r.Done? ==> Data() == ContextGraph.CreateSubgraph(old(Data()), pr, name, summary, members).value
      ensures r.Done? ==> r.value !in old(subgraphs) && r.value in subgraphs && outbox == old(outbox) + 1
      ensures r.Done? ==> Told(pr.project, "context.subgraph.created", {r.value})
    {
      var w, g := CreateSubgraphIn(Data(), pr, name, summary, members);
      if w.Refused? { return Refused; }
      StepKeepsSound(Data(), CreateSubgraphStep(pr, name, summary, members));
      Commit(w.value, pr.project, "context.subgraph.created", {g}, 1);
      r := Done(g);
    }

    method UpdateSubgraph(pr: Principal, g: SubgraphId, expected: int, name: string, summary: string,
                          members: seq<NodeId>) returns (ok: bool)
      requires Valid()
      modifies `nextSeq, `nodes, `subgraphs, `edges, `taskBindings, `projections, `graphRevision, `deltas, `outbox
      ensures Valid()
      ensures ok <==> ContextGraph.UpdateSubgraph(old(Data()), pr, g, expected, name, summary, members).Done?
      ensures !ok ==> Data() == old(Data()) && deltas == old(deltas) && outbox == old(outbox)
      ensures ok ==> Data() == ContextGraph.UpdateSubgraph(old(Data()), pr, g, expected, name, summary, members).value
      ensures ok ==> outbox == old(outbox) + 1
      ensures ok ==> Told(pr.project, "context.subgraph.updated", {g})
    {
      var w := UpdateSubgraphIn(Data(), pr, g, expected, name, summary, members);
      if w.Refused? { return false; }
      StepKeepsSound(Data(), UpdateSubgraphStep(pr, g, expected, name, summary, members));
      Commit(w.value, pr.project, "context.subgraph.updated", {g}, 1);
      ok := true;
    }

    /** Nobody hears of a deleted subgraph: it is gone before the fan-out looks it up. */
    method DeleteSubgraph(pr: Principal, g: SubgraphId, expected: int) returns (ok: bool)
      requires Valid()
      modifies `nextSeq, `nodes, `subgraphs, `edges, `taskBindings, `projections, `graphRevision, `deltas, `outbox
      ensures Valid()
      ensures ok <==> ContextGraph.DeleteSubgraph(old(Data()), pr, g, expected).Done?
      ensures deltas == old(deltas)
      ensures !ok ==> Data() == old(Data()) && outbox == old(outbox)
      ensures ok ==> Data() == ContextGraph.DeleteSubgraph(old(Data()), pr, g, expected).value
      ensures ok ==> outbox == old(outbox) + 1
    {
      var w := DeleteSubgraphIn(Data(), pr, g, expected);
      if w.Refused? { return false; }
      StepKeepsSound(Data(), DeleteSubgraphStep(pr, g, expected));
      Commit(w.value, pr.project, "context.subgraph.deleted", {g}, 1);
      UnheardAddsNothing(old(deltas), deltas, subscriptions, subgraphs,
                         EventNow(pr.project, "context.subgraph.deleted", {g}));
      ok := true;
    }

    method CreateNodes(pr: Principal, expected: int, inputs: seq<NodeInput>) returns (ok: bool)
      requires Valid()
      modifies `nextSeq, `nodes, `subgraphs, `edges, `taskBindings, `projections, `graphRevision, `deltas, `outbox
      ensures Valid()
      ensures ok <==> ContextGraph.CreateNodes(old(Data()), pr, expected, inputs).Done?
      ensures !ok ==> Data() == old(Data()) && deltas == old(deltas) && outbox == old(outbox)
      ensures ok ==> Data() == ContextGraph.CreateNodes(old(Data()), pr, expected, inputs).value
      ensures ok ==> outbox == old(outbox) + |inputs| && Told(pr.project, "context.node.created", Touched(inputs))
    {
      var w, touched := CreateNodesIn(Data(), pr, expected, inputs);
      if w.Refused? { return false; }
      Commit(w.value, pr.project, "context.node.created", touched, |inputs|);
      ok := true;
    }

    method RegisterTaskSubgraph(pr: Principal, task: TaskId, taskExists: bool) returns (r: Outcome<SubgraphId>)
      requires Valid()
      modifies `nextSeq, `nodes, `subgraphs, `edges, `taskBindings, `projections, `graphRevision
      ensures Valid()
      ensures r.Done? <==> ContextGraph.RegisterTaskSubgraph(old(Data()), pr, task, taskExists).Done?
      ensures r.Refused? ==> Data() == old(Data())
      ensures r.Done? ==> Data() == ContextGraph.RegisterTaskSubgraph(old(Data()), pr, task, taskExists).value
      ensures r.Done? ==> var k := TaskKey(pr.project, if task == "" then pr.task else task);
                          k in taskBindings && taskBindings[k] == r.value
    {
      var w := RegisterTaskSubgraphIn(Data(), pr, task, taskExists);
      if w.Refused? { return Refused; }
      StepKeepsSound(Data(), RegisterStep(pr, task, taskExists));
      ReplaceData(w.value);
      r := Done(taskBindings[TaskKey(pr.project, if task == "" then pr.task else task)]);
    }

    method ProjectTaskContext(pr: Principal, p: Projection) returns (ok: bool)
      requires Valid()
      modifies `nextSeq, `nodes, `subgraphs, `edges, `taskBindings, `projections, `graphRevision, `deltas, `outbox
      ensures Valid()
      ensures ok <==> ContextGraph.ProjectTaskContext(old(Data()), pr, p).Done?
      ensures graphRevision == old(graphRevision) ==> deltas == old(deltas)
      ensures !ok ==> Data() == old(Data())
      ensures ok ==> Data() == ContextGraph.ProjectTaskContext(old(Data()), pr, p).value
      ensures ok && ProjectionKey(pr.project, p.id) !in old(projections)
              ==> Told(pr.project, "context.task_projection.created", UniqueSubgraphs(p.subgraphs))
      ensures ok && ProjectionKey(pr.project, p.id) in old(projections)
              ==> var was := old(nodes[projections[ProjectionKey(pr.project, p.id)]].node);
                  FreshnessOf(p.revision, was.sources) == Newer
                  ==> Told(pr.project, "context.task_projection.updated", was.subgraphs + UniqueSubgraphs(p.subgraphs))
    {
      var w, changed, touched := ProjectTaskContextIn(Data(), pr, p);
      if w.Refused? { return false; }
      if changed {
        var kind := if ProjectionKey(pr.project, p.id) in projections then "context.task_projection.updated"
                    else "context.task_projection.created";
        Commit(w.value, pr.project, kind, touched, 1);
      }
      ok := true;
    }

    // -------------------------------------------------------------------------------------
    // Subscriptions, deltas and slices
    // -------------------------------------------------------------------------------------

    /** What a caller asks for is always an explicit subscription. */
    method Subscribe(pr: Principal, q: SubscribeRequest) returns (r: Outcome<nat>)
      requires Valid()
      modifies `subscriptions, `initialSlices
      ensures Valid()
      ensures r.Done? <==> ContextDelivery.Subscribe(old(Delivered()), Data(), pr, q.(source := Explicit)).Done?
      ensures r.Refused? ==> Delivered() == old(Delivered())
      ensures r.Done? ==>
        Delivered() == ContextDelivery.Subscribe(old(Delivered()), Data(), pr, q.(source := Explicit)).value
      ensures r.Done? ==> r.value == old(|subscriptions|) + 1
    {
      DeliveryRuns.StepKeeps(DeliveryRuns.World(Data(), Delivered()),
                             DeliveryRuns.SubscribeStep(pr, q.(source := Explicit)));
      var v, id := CreateSubscription(Delivered(), Data(), pr, q.(source := Explicit));
      if v.Refused? { return Refused; }
      ReplaceDelivery(v.value);
      r := Done(id);
    }

    method Unsubscribe(pr: Principal, id: nat) returns (ok: bool)
      requires Valid()
      modifies `subscriptions
      ensures Valid()
      ensures ok <==> ContextDelivery.Unsubscribe(old(Delivered()), pr, id).Done?
      ensures !ok ==> Delivered() == old(Delivered())
      ensures ok ==> Delivered() == ContextDelivery.Unsubscribe(old(Delivered()), pr, id).value
    {
      if id !in subscriptions { return false; }
      var record := subscriptions[id];
      if record.project != pr.project || record.invocation != pr.invocation { return false; }
      DeliveryRuns.UnsubscribeKeeps(Delivered(), pr, id);
      if record.active { subscriptions := subscriptions[id := record.(active := false)]; }
      assert Delivered() == ContextDelivery.Unsubscribe(old(Delivered()), pr, id).value;
      ok := true;
    }

    method EndInvocation(pr: Principal)
      requires Valid()
      modifies `subscriptions
      ensures Valid()
      ensures Delivered() == ContextDelivery.EndInvocation(old(Delivered()), pr)
    {
      DeliveryRuns.EndStepKeeps(Delivered(), pr);
      subscriptions := ExpireAll(subscriptions, pr.project, pr.invocation);
      assert Delivered() == ContextDelivery.EndInvocation(old(Delivered()), pr);
    }

    /** Tells an event that changed nothing in the graph. */
    method RecordContextDelta(pr: Principal, eventId: string, kind: string, touched: seq<SubgraphId>)
      returns (ok: bool)
      requires Valid()
      modifies `deltas
      ensures Valid()
      ensures ok <==> eventId != "" && kind != ""
      ensures !ok ==> deltas == old(deltas)
      ensures ok ==> FansOut(old(deltas), deltas, subscriptions, subgraphs,
                             Event(pr.project, eventId, kind, UniqueSubgraphs(touched), graphRevision))
    {
      if eventId == "" || kind == "" { return false; }
      var e := Event(pr.project, eventId, kind, UniqueSubgraphs(touched), graphRevision);
      var told := FanOut(deltas, subscriptions, subgraphs, e);
      FanOutKeeps(deltas, told, subscriptions, subgraphs, e);
      deltas := told;
      ok := true;
    }

    method AckDelta(pr: Principal, id: nat) returns (ok: bool)
      requires Valid()
      modifies `deltaAck
      ensures Valid()
      ensures ok <==> Ack(old(Delivered()), pr, id).Done?
      ensures !ok ==> Delivered() == old(Delivered())
      ensures ok ==> Delivered() == Ack(old(Delivered()), pr, id).value
    {
      if id !in deltas || deltas[id].project != pr.project || deltas[id].invocation != pr.invocation { return false; }
      var s := deltas[id].subscription;
      if s !in subscriptions || subscriptions[s].project != pr.project
         || subscriptions[s].invocation != deltas[id].invocation { return false; }
      deltaAck := deltaAck + {id};
      ok := true;
    }

    method EnsureInitialSlice(pr: Principal, ids: seq<SubgraphId>) returns (r: Outcome<Slice>)
      requires Valid()
      modifies `subscriptions, `initialSlices
      ensures Valid()
      ensures (r, Delivered()) == DeliveryRuns.EnsureInitialSlice(old(Delivered()), Data(), pr, ids,
                                                                  if r.Done? then r.value.nodes else [])
      ensures r.Done? && DeliveryRuns.KeyOf(pr) !in old(initialSlices)
              ==> SlicesTo(Data(), Effective(Data(), subscriptions, pr, pr.invocation), r.value.nodes)
    {
      var v;
      r, v := InitialSliceIn(Delivered(), Data(), pr, ids);
      ReplaceDelivery(v);
    }

    // -------------------------------------------------------------------------------------
    // Task memory
    // -------------------------------------------------------------------------------------

    method SubmitCandidate(pr: Principal, q: CandidateRequest, acceptable: bool) returns (r: Outcome<string>)
      requires Valid()
      modifies `candidates
      ensures Valid()
      ensures r.Done? <==> ContextReview.SubmitCandidate(old(Remembered()), Data(), pr, q, acceptable).Done?
      ensures r.Refused? ==> Remembered() == old(Remembered())
      ensures r.Done? ==>
        Remembered() == ContextReview.SubmitCandidate(old(Remembered()), Data(), pr, q, acceptable).value
      ensures r.Done? ==> var k := TaskKey(pr.project, pr.task);
                          r.value == CandidateText(k, old(|Remembered().Batch(k)|) + 1)
    {
      if pr.task == "" || !acceptable || !ValidKind(q.kind) || q.sources == [] { return Refused; }
      var k := TaskKey(pr.project, pr.task);
      if k in taskMemory && taskMemory[k] != Open { return Refused; }
      if HasTaskMembership(subgraphs, set g | g in q.subgraphs) { return Refused; }
      ReviewRuns.CandidateKeepsInv(Remembered(), Data(), pr, q, acceptable);
      var batch := if k in candidates then candidates[k] else [];
      var id := CandidateText(k, |batch| + 1);
      candidates := candidates[k := batch + [Candidate(id, q.statement, q.kind, q.sources, q.subgraphs, pr.actor)]];
      assert Remembered() == ContextReview.SubmitCandidate(old(Remembered()), Data(), pr, q, acceptable).value;
      r := Done(id);
    }

    method FinalizeTaskMemory(pr: Principal, task: TaskId, taskDone: bool) returns (r: Outcome<seq<Candidate>>)
      requires Valid()
      modifies `taskMemory
      ensures Valid()
      ensures r.Done? <==> ContextReview.FinalizeTaskMemory(old(Remembered()), pr, task, taskDone).Done?
      ensures r.Refused? ==> Remembered() == old(Remembered())
      ensures r.Done? ==> Remembered() == ContextReview.FinalizeTaskMemory(old(Remembered()), pr, task, taskDone).value
      ensures r.Done? ==> r.value == Remembered().Batch(TaskKey(pr.project, if task == "" then pr.task else task))
    {
      var t := if task == "" then pr.task else task;
      if t == "" || !taskDone { return Refused; }
      var k := TaskKey(pr.project, t);
      ReviewRuns.FinalizeKeepsInv(Remembered(), pr, task, taskDone);
      if k !in taskMemory || taskMemory[k] == Open { taskMemory := taskMemory[k := Frozen]; }
      assert Remembered() == ContextReview.FinalizeTaskMemory(old(Remembered()), pr, task, taskDone).value;
      r := Done(if k in candidates then candidates[k] else []);
    }

    method SubmitReview(pr: Principal, decisions: seq<Decision>) returns (r: Outcome<Receipt>)
      requires Valid()
      modifies `nextSeq, `nodes, `subgraphs, `edges, `taskBindings, `projections, `graphRevision, `deltas, `outbox,
               `candidates, `taskMemory, `reviewReceipts
      ensures Valid()
      ensures (r, Data(), Remembered()) == ContextReview.SubmitReview(old(Remembered()), old(Data()), pr, decisions)
      ensures taskMemory == old(taskMemory) ==> deltas == old(deltas)
      ensures taskMemory != old(taskMemory) && r.Done?
              ==> Told(pr.project, "context.candidate_review.reviewed", ReviewTouched(Data(), r.value.nodes))
    {
      ReviewRuns.ReviewKeepsInv(Remembered(), Data(), pr, decisions);
      var d, m;
      r, d, m := ReviewIn(Remembered(), Data(), pr, decisions);
      if m.states == taskMemory { return; }
      Commit(d, pr.project, "context.candidate_review.reviewed", ReviewTouched(d, r.value.nodes), |decisions|);
      ReplaceMemory(m);
    }
  }

  /** The subgraphs of the nodes a review created. */
  function ReviewTouched(d: Graph, created: seq<NodeId>): set<SubgraphId> {
    set id, g | id in created && id in d.nodes && g in d.nodes[id].node.subgraphs :: g
  }
}
