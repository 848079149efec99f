/** Runs of context graph mutations: every reachable graph is sound. That no edge leads from one project into
    another is not promised, because a generated node id can meet one a caller chose; when it is kept is made exact.
 */
module ContextGraphRuns {
  import opened ContextGraph

  // ---------------------------------------------------------------------------------------
  // Sound and well-formed graphs
  // ---------------------------------------------------------------------------------------

  predicate AllOfKind(d: Graph, ids: set<SubgraphId>, kind: SubgraphKind) {
    forall g <- ids :: g in d.subgraphs && d.subgraphs[g].kind == kind
  }

  /** A node of a task is one the store projected there under a generated task id. */
  predicate TaskIdTaken(d: Graph, id: NodeId) {
    id.TaskSeq? && id.n <= d.nextSeq
  }

  /** Memberships exist, share the node's project, and are all general or all task ones; revisions start at one. */
  ghost predicate NodeOk(d: Graph, id: NodeId)
    requires id in d.nodes
  {
    var r := d.nodes[id];
    && r.node.id == id && r.revision >= 1
    && (forall g <- r.node.subgraphs :: g in d.subgraphs && d.subgraphs[g].project == r.project)
    && (AllOfKind(d, r.node.subgraphs, General)
        || (AllOfKind(d, r.node.subgraphs, Task) && TaskIdTaken(d, id)))
    && r.sequence <= d.nextSeq
  }

  predicate OriginExists(d: Graph, o: Origin) {
    match o
    case FromNode(id) => id in d.nodes
    case FromSubgraph(g) => g in d.subgraphs
  }

  /** Both ends exist. */
  ghost predicate EdgeEnds(d: Graph, e: Edge) {
    e.to in d.nodes && OriginExists(d, e.origin)
  }

  /** A task is bound to an existing task subgraph of its own. */
  ghost predicate BindingOk(d: Graph, k: TaskKey)
    requires k in d.bindings
  {
    && d.bindings[k] in d.subgraphs
    && var g := d.subgraphs[d.bindings[k]]; g.kind == Task && g.project == k.project && g.task == k.task
  }

  /** A projection names an existing node of its project that lives in task subgraphs only. */
  ghost predicate ProjectionOk(d: Graph, k: ProjectionKey)
    requires k in d.projections
  {
    var id := d.projections[k];
    && id in d.nodes && d.nodes[id].project == k.project && TaskIdTaken(d, id)
    && d.nodes[id].node.subgraphs != {} && AllOfKind(d, d.nodes[id].node.subgraphs, Task)
  }

  ghost predicate OwnSequence(d: Graph, a: NodeId, b: NodeId)
    requires a in d.nodes && b in d.nodes
  {
    a != b ==> d.nodes[a].sequence != d.nodes[b].sequence
  }

  /** What every reachable graph satisfies, whatever ids callers choose. */
  ghost predicate Sound(d: Graph) {
    && (forall id {:trigger NodeOk(d, id)} | id in d.nodes :: NodeOk(d, id))
    && (forall e {:trigger EdgeEnds(d, e)} | e in d.edges :: EdgeEnds(d, e))
    && (forall k {:trigger BindingOk(d, k)} | k in d.bindings :: BindingOk(d, k))
    && (forall k {:trigger ProjectionOk(d, k)} | k in d.projections :: ProjectionOk(d, k))
    && (forall a, b {:trigger OwnSequence(d, a, b)} | a in d.nodes && b in d.nodes :: OwnSequence(d, a, b))
  }

  predicate OriginIn(d: Graph, o: Origin, project: ProjectId) {
    match o
    case FromNode(id) => id in d.nodes && d.nodes[id].project == project
    case FromSubgraph(g) => g in d.subgraphs && d.subgraphs[g].project == project
  }

  /** Both ends are in one project. */
  ghost predicate EdgeOk(d: Graph, e: Edge) {
    e.to in d.nodes && OriginIn(d, e.origin, d.nodes[e.to].project)
  }

  /** The one thing an id a caller chose can break: no edge leads from one project into another. */
  ghost predicate ProjectsApart(d: Graph) {
    forall e {:trigger EdgeOk(d, e)} | e in d.edges :: EdgeOk(d, e)
  }

  ghost predicate WellFormed(d: Graph) {
    Sound(d) && ProjectsApart(d)
  }

  /** No id the store has still to generate is taken. */
  predicate NotAhead(nextSeq: nat, id: NodeId) {
    id.Named? || id.n <= nextSeq
  }

  ghost predicate Fresh(d: Graph) {
    forall id {:trigger NotAhead(d.nextSeq, id)} | id in d.nodes :: NotAhead(d.nextSeq, id)
  }

  // ---------------------------------------------------------------------------------------
  // What each mutation keeps
  // ---------------------------------------------------------------------------------------

  /** The new record may stand in the graph: a complete node of one kind, with its own sequence number. */
  ghost predicate FitsIn(d: Graph, r: NodeRecord) {
    && (forall g <- r.node.subgraphs :: g in d.subgraphs && d.subgraphs[g].project == r.project)
    && (AllOfKind(d, r.node.subgraphs, General)
        || (AllOfKind(d, r.node.subgraphs, Task) && r.node.id == TaskSeq(d.nextSeq + 1)))
    && r.sequence == d.nextSeq + 1 && r.revision >= 1
  }

  /** The edge, if it ends at the id, would stay in the project. */
  predicate EdgeStaysIn(d: Graph, e: Edge, id: NodeId, project: ProjectId) {
    && (e.to == id ==> e.origin == FromNode(id) || OriginIn(d, e.origin, project))
    && (e.origin == FromNode(id) && e.to != id ==> e.to in d.nodes && d.nodes[e.to].project == project)
  }

  /** No edge at the id leads into another project. */
  predicate EdgesStayIn(d: Graph, id: NodeId, project: ProjectId) {
    forall e <- d.edges :: EdgeStaysIn(d, e, id, project)
  }

  /** What is in both graphs is in the same project in both. */
  ghost predicate SameHomes(d: Graph, d': Graph) {
    && (forall id {:trigger d.nodes[id]} {:trigger d'.nodes[id]} | id in d.nodes && id in d'.nodes ::
          d'.nodes[id].project == d.nodes[id].project)
    && (forall g {:trigger d.subgraphs[g]} {:trigger d'.subgraphs[g]} | g in d.subgraphs && g in d'.subgraphs ::
          d'.subgraphs[g].project == d.subgraphs[g].project)
  }

  /** Edges that keep their ends keep their project. */
  lemma EdgesStay(d: Graph, d': Graph)
    requires WellFormed(d) && Sound(d') && d'.edges <= d.edges && SameHomes(d, d')
    ensures WellFormed(d')
  {
    forall e | e in d'.edges ensures EdgeOk(d', e) { assert EdgeOk(d, e) && EdgeEnds(d', e); }
  }

  /** Same subgraphs up to name, summary and revision. */
  ghost predicate SameShape(d: Graph, d': Graph) {
    && d.subgraphs.Keys == d'.subgraphs.Keys
    && forall g {:trigger d'.subgraphs[g]} {:trigger d.subgraphs[g]} | g in d.subgraphs ::
         && d'.subgraphs[g].kind == d.subgraphs[g].kind
         && d'.subgraphs[g].project == d.subgraphs[g].project
         && d'.subgraphs[g].task == d.subgraphs[g].task
  }

  /** Names, summaries and revisions play no part in being well formed. */
  lemma ShapeKeeps(d: Graph, d': Graph)
    requires Sound(d) && SameShape(d, d')
    requires d'.nodes == d.nodes && d'.edges == d.edges && d'.nextSeq == d.nextSeq
    requires d'.bindings == d.bindings && d'.projections == d.projections
    ensures Sound(d') && (WellFormed(d) <==> WellFormed(d'))
  {
    forall id | id in d'.nodes ensures NodeOk(d', id) { assert NodeOk(d, id); }
    forall e | e in d'.edges ensures EdgeEnds(d', e) { assert EdgeEnds(d, e); }
    forall k | k in d'.bindings ensures BindingOk(d', k) { assert BindingOk(d, k); }
    forall k | k in d'.projections ensures ProjectionOk(d', k) { assert ProjectionOk(d, k); }
    forall a, b | a in d'.nodes && b in d'.nodes ensures OwnSequence(d', a, b) { assert OwnSequence(d, a, b); }
    if WellFormed(d) { EdgesStay(d, d'); }
    if WellFormed(d') { EdgesStay(d', d); }
  }

  function Stored(d: Graph, r: NodeRecord): Graph {
    Put(d, r).(nextSeq := d.nextSeq + 1)
  }

  ghost predicate NotProjected(d: Graph, id: NodeId) {
    forall k <- d.projections :: d.projections[k] != id
  }

  lemma StoredNodesOk(d: Graph, r: NodeRecord)
    requires Sound(d) && FitsIn(d, r)
    ensures forall id {:trigger NodeOk(Stored(d, r), id)} | id in Stored(d, r).nodes :: NodeOk(Stored(d, r), id)
    ensures forall a, b {:trigger OwnSequence(Stored(d, r), a, b)} |
              a in Stored(d, r).nodes && b in Stored(d, r).nodes :: OwnSequence(Stored(d, r), a, b)
  {
    var d' := Stored(d, r);
    forall id | id in d'.nodes ensures NodeOk(d', id) {
      if id != r.node.id { assert NodeOk(d, id); }
    }
    forall a, b | a in d'.nodes && b in d'.nodes ensures OwnSequence(d', a, b) {
      if a in d.nodes { assert NodeOk(d, a); }
      if b in d.nodes { assert NodeOk(d, b); }
      if a in d.nodes && b in d.nodes { assert OwnSequence(d, a, b); }
    }
  }

  /** Storing a new node under the next sequence number keeps the graph sound, and well formed exactly when the id
      it lands on has no edges into another project. */
  lemma StoringKeepsIff(d: Graph, r: NodeRecord)
    requires Sound(d) && FitsIn(d, r) && NotProjected(d, r.node.id)
    ensures Sound(Stored(d, r))
    ensures WellFormed(d) ==> (WellFormed(Stored(d, r)) <==> EdgesStayIn(d, r.node.id, r.project))
  {
    var d' := Stored(d, r);
    StoredNodesOk(d, r);
    forall e | e in d'.edges ensures EdgeEnds(d', e) { assert EdgeEnds(d, e); }
    forall k | k in d'.bindings ensures BindingOk(d', k) { assert BindingOk(d, k); }
    forall k | k in d'.projections ensures ProjectionOk(d', k) { assert ProjectionOk(d, k); }
    if WellFormed(d) {
      forall e | e in d.edges ensures EdgeOk(d', e) <==> EdgeStaysIn(d, e, r.node.id, r.project) {
        assert EdgeOk(d, e);
      }
    }
  }

  /** A node that belongs to no task is not one a projection names. */
  lemma GeneralIsNotProjected(d: Graph, id: NodeId)
    requires Sound(d) && id in d.nodes && !HasTaskMembership(d.subgraphs, d.nodes[id].node.subgraphs)
    ensures NotProjected(d, id) && AllOfKind(d, d.nodes[id].node.subgraphs, General)
  {
    assert NodeOk(d, id);
    forall k | k in d.projections ensures d.projections[k] != id {
      assert ProjectionOk(d, k);
    }
    forall g | g in d.nodes[id].node.subgraphs ensures g in d.subgraphs && d.subgraphs[g].kind == General {
    }
  }

  /** Replacing a record by one of the same node, project and sequence number. */
  lemma ReplacingKeeps(d: Graph, r: NodeRecord, touched: set<SubgraphId>)
    requires Sound(d) && r.node.id in d.nodes
    requires r.project == d.nodes[r.node.id].project && r.sequence == d.nodes[r.node.id].sequence && r.revision >= 1
    requires forall g <- r.node.subgraphs :: g in d.subgraphs && d.subgraphs[g].project == r.project
    requires (AllOfKind(d, r.node.subgraphs, General) && NotProjected(d, r.node.id))
          || (AllOfKind(d, r.node.subgraphs, Task) && r.node.subgraphs != {} && TaskIdTaken(d, r.node.id))
    ensures Sound(Replace(d, r, touched)) && (WellFormed(d) ==> WellFormed(Replace(d, r, touched)))
  {
    var d' := Replace(d, r, touched);
    forall id | id in d'.nodes ensures NodeOk(d', id) { assert NodeOk(d, id); }
    forall e | e in d'.edges ensures EdgeEnds(d', e) { assert EdgeEnds(d, e); }
    forall k | k in d'.bindings ensures BindingOk(d', k) { assert BindingOk(d, k); }
    forall k | k in d'.projections ensures ProjectionOk(d', k) { assert ProjectionOk(d, k); }
    forall a, b | a in d'.nodes && b in d'.nodes ensures OwnSequence(d', a, b) { assert OwnSequence(d, a, b); }
    if WellFormed(d) { EdgesStay(d, d'); }
  }

  lemma UpdateNodeKeeps(d: Graph, pr: Principal, id: NodeId, expected: int, q: NodeRequest)
    requires Sound(d) && UpdateNode(d, pr, id, expected, q).Done?
    ensures var d' := UpdateNode(d, pr, id, expected, q).value; Sound(d') && (WellFormed(d) ==> WellFormed(d'))
  {
    assert NodeOk(d, id);
    GeneralIsNotProjected(d, id);
    var r := d.nodes[id];
    var n := UpdatedNode(d, id, q);
    ReplacingKeeps(d, r.(node := n, revision := r.revision + 1), Changed(r.node.subgraphs, n.subgraphs));
  }

  lemma DeleteNodeKeeps(d: Graph, pr: Principal, id: NodeId, expected: int)
    requires Sound(d) && DeleteNode(d, pr, id, expected).Done?
    ensures var d' := DeleteNode(d, pr, id, expected).value; Sound(d') && (WellFormed(d) ==> WellFormed(d'))
  {
    var d' := DeleteNode(d, pr, id, expected).value;
    GeneralIsNotProjected(d, id);
    forall x | x in d'.nodes ensures NodeOk(d', x) { assert NodeOk(d, x); }
    forall e | e in d'.edges ensures EdgeEnds(d', e) { assert EdgeEnds(d, e); }
    forall k | k in d'.bindings ensures BindingOk(d', k) { assert BindingOk(d, k); }
    forall k | k in d'.projections ensures ProjectionOk(d', k) { assert ProjectionOk(d, k); }
    forall a, b | a in d'.nodes && b in d'.nodes ensures OwnSequence(d', a, b) { assert OwnSequence(d, a, b); }
    if WellFormed(d) { EdgesStay(d, d'); }
  }

  /** The graph with a general subgraph of the project written and its members set. */
  function WithMembers(d: Graph, g: SubgraphId, r: SubgraphRecord, w: set<NodeId>): Graph {
    d.(subgraphs := d.subgraphs[g := r], nodes := SetMembers(d.nodes, r.project, g, w), revision := d.revision + 1)
  }

  /** The subgraph written is a new one, or a general one of the same project. */
  predicate Writable(d: Graph, g: SubgraphId, r: SubgraphRecord) {
    && r.kind == General
    && (g in d.subgraphs ==> d.subgraphs[g].kind == General && d.subgraphs[g].project == r.project)
  }

  lemma MembersNodeOk(d: Graph, pr: Principal, g: SubgraphId, r: SubgraphRecord, w: set<NodeId>, id: NodeId)
    requires Sound(d) && Writable(d, g, r) && r.project == pr.project && MembersAllowed(d, pr, w)
    requires id in d.nodes
    ensures NodeOk(WithMembers(d, g, r, w), id)
    ensures (d.nodes[id].node.subgraphs != {} && AllOfKind(d, d.nodes[id].node.subgraphs, Task))
            ==> WithMembers(d, g, r, w).nodes[id] == d.nodes[id]
  {
    var d' := WithMembers(d, g, r, w);
    var before, after := d.nodes[id].node.subgraphs, d'.nodes[id].node.subgraphs;
    assert NodeOk(d, id);
    if AllOfKind(d, before, General) {
      forall h | h in after ensures h in d'.subgraphs && d'.subgraphs[h].kind == General
                                 && d'.subgraphs[h].project == d.nodes[id].project
      {
        if h != g { assert h in before; }
      }
      assert AllOfKind(d', after, General);
      if before != {} {
        var h :| h in before;
        assert d.subgraphs[h].kind == General;
      }
    } else {
      var h :| h in before && !(h in d.subgraphs && d.subgraphs[h].kind == General);
      assert d.subgraphs[h].kind == Task;
      assert HasTaskMembership(d.subgraphs, before);
      assert id !in w;
      assert g !in before;
      assert after == before;
      forall x | x in after ensures x in d'.subgraphs && d'.subgraphs[x] == d.subgraphs[x] {}
    }
  }

  lemma WithMembersKeeps(d: Graph, pr: Principal, g: SubgraphId, r: SubgraphRecord, w: set<NodeId>)
    requires Sound(d) && Writable(d, g, r) && r.project == pr.project && MembersAllowed(d, pr, w)
    ensures Sound(WithMembers(d, g, r, w)) && (WellFormed(d) ==> WellFormed(WithMembers(d, g, r, w)))
  {
    var d' := WithMembers(d, g, r, w);
    forall id | id in d'.nodes ensures NodeOk(d', id) { MembersNodeOk(d, pr, g, r, w, id); }
    forall e | e in d'.edges ensures EdgeEnds(d', e) { assert EdgeEnds(d, e); }
    forall k | k in d'.bindings ensures BindingOk(d', k) { assert BindingOk(d, k); }
    forall k | k in d'.projections ensures ProjectionOk(d', k) {
      assert ProjectionOk(d, k);
      MembersNodeOk(d, pr, g, r, w, d.projections[k]);
    }
    forall a, b | a in d'.nodes && b in d'.nodes ensures OwnSequence(d', a, b) { assert OwnSequence(d, a, b); }
    if WellFormed(d) { EdgesStay(d, d'); }
  }

  lemma DeleteSubgraphNodeOk(d: Graph, pr: Principal, g: SubgraphId, expected: int, id: NodeId)
    requires Sound(d) && DeleteSubgraph(d, pr, g, expected).Done? && id in d.nodes
    ensures NodeOk(DeleteSubgraph(d, pr, g, expected).value, id)
    ensures (d.nodes[id].node.subgraphs != {} && AllOfKind(d, d.nodes[id].node.subgraphs, Task))
            ==> DeleteSubgraph(d, pr, g, expected).value.nodes[id] == d.nodes[id]
  {
    assert NodeOk(d, id);
    var d' := DeleteSubgraph(d, pr, g, expected).value;
    if AllOfKind(d, d.nodes[id].node.subgraphs, Task) {
      assert g !in d.nodes[id].node.subgraphs;
      assert d'.nodes[id].node.subgraphs == d.nodes[id].node.subgraphs;
    }
  }

  lemma DeleteSubgraphKeeps(d: Graph, pr: Principal, g: SubgraphId, expected: int)
    requires Sound(d) && DeleteSubgraph(d, pr, g, expected).Done?
    ensures var d' := DeleteSubgraph(d, pr, g, expected).value; Sound(d') && (WellFormed(d) ==> WellFormed(d'))
  {
    var d' := DeleteSubgraph(d, pr, g, expected).value;
    forall id | id in d'.nodes ensures NodeOk(d', id) { DeleteSubgraphNodeOk(d, pr, g, expected, id); }
    forall e | e in d'.edges ensures EdgeEnds(d', e) { assert EdgeEnds(d, e); }
    forall k | k in d'.bindings ensures BindingOk(d', k) { assert BindingOk(d, k); }
    forall k | k in d'.projections ensures ProjectionOk(d', k) {
      assert ProjectionOk(d, k);
      DeleteSubgraphNodeOk(d, pr, g, expected, d.projections[k]);
    }
    forall a, b | a in d'.nodes && b in d'.nodes ensures OwnSequence(d', a, b) { assert OwnSequence(d, a, b); }
    if WellFormed(d) { EdgesStay(d, d'); }
  }

  /** The graph with a task bound to a new subgraph of its own. */
  function Bound(d: Graph, k: TaskKey, g: SubgraphId): Graph {
    d.(bindings := d.bindings[k := g], revision := d.revision + 1,
       subgraphs := d.subgraphs[g := SubgraphRecord(k.task, "task context", 1, Task, k.project, k.task)])
  }

  lemma BoundKeeps(d: Graph, k: TaskKey, g: SubgraphId)
    requires Sound(d) && k !in d.bindings && g !in d.subgraphs
    ensures Sound(Bound(d, k, g)) && (WellFormed(d) ==> WellFormed(Bound(d, k, g)))
  {
    var d' := Bound(d, k, g);
    forall id | id in d'.nodes ensures NodeOk(d', id) { assert NodeOk(d, id); }
    forall e | e in d'.edges ensures EdgeEnds(d', e) { assert EdgeEnds(d, e); }
    forall x | x in d'.bindings ensures BindingOk(d', x) {
      if x in d.bindings { assert BindingOk(d, x); }
    }
    forall x | x in d'.projections ensures ProjectionOk(d', x) { assert ProjectionOk(d, x); }
    forall a, b | a in d'.nodes && b in d'.nodes ensures OwnSequence(d', a, b) { assert OwnSequence(d, a, b); }
    if WellFormed(d) { EdgesStay(d, d'); }
  }

  lemma RegisterKeeps(d: Graph, pr: Principal, task: TaskId, taskExists: bool)
    requires Sound(d) && RegisterTaskSubgraph(d, pr, task, taskExists).Done?
    ensures var d' := RegisterTaskSubgraph(d, pr, task, taskExists).value;
            Sound(d') && (WellFormed(d) ==> WellFormed(d'))
  {
    var t := if task == "" then pr.task else task;
    var k, g := TaskKey(pr.project, t), TaskSubgraphId(pr.project, t);
    if k !in d.bindings { BoundKeeps(d, k, g); }
  }

  // ---------------------------------------------------------------------------------------
  // Generated ids
  // ---------------------------------------------------------------------------------------

  /** A node under the next generated id, in subgraphs a Context Agent may write. */
  lemma GeneratedFits(d: Graph, pr: Principal, n: Node)
    requires Sound(d) && (n.id == NodeSeq(d.nextSeq + 1) || n.id == ReviewSeq(d.nextSeq + 1))
    requires forall g <- n.subgraphs ::
      g in d.subgraphs && CanSeeSubgraph(pr, d.subgraphs[g]) && d.subgraphs[g].kind == General
    ensures FitsIn(d, NodeRecord(n, 1, pr.project, d.nextSeq + 1)) && NotProjected(d, n.id)
  {
    forall k | k in d.projections ensures d.projections[k] != n.id { assert ProjectionOk(d, k); }
  }

  /** Creating a node keeps the graph sound, and well formed exactly when no edge at the id it generates leads
      into another project. */
  lemma CreateNodeKeepsIff(d: Graph, pr: Principal, q: NodeRequest)
    requires Sound(d) && CreateNode(d, pr, q).Done?
    ensures var d' := CreateNode(d, pr, q).value;
            && Sound(d')
            && (WellFormed(d) ==> (WellFormed(d') <==> EdgesStayIn(d, NodeSeq(d.nextSeq + 1), pr.project)))
  {
    var n := NewNode(d, pr, q);
    var r := NodeRecord(n, 1, pr.project, d.nextSeq + 1);
    GeneratedFits(d, pr, n);
    StoringKeepsIff(d, r);
    ShapeKeeps(Stored(d, r), CreateNode(d, pr, q).value);
  }

  /** An id nothing was stored under has no edges. */
  lemma UnusedHasNoEdges(d: Graph, id: NodeId, project: ProjectId)
    requires Sound(d) && id !in d.nodes
    ensures EdgesStayIn(d, id, project) && NotProjected(d, id)
  {
    forall e | e in d.edges ensures e.to != id && e.origin != FromNode(id) { assert EdgeEnds(d, e); }
    forall k | k in d.projections ensures d.projections[k] != id { assert ProjectionOk(d, k); }
  }

  /** A projection keeps the graph sound. It keeps it well formed exactly when it replaces a stored one or no edge
      at the id it generates leads into another project. */
  lemma ProjectKeepsIff(d: Graph, pr: Principal, p: Projection)
    requires Sound(d) && ProjectTaskContext(d, pr, p).Done?
    ensures var d' := ProjectTaskContext(d, pr, p).value;
            && Sound(d')
            && (WellFormed(d) ==> (WellFormed(d') <==>
                  (ProjectionKey(pr.project, p.id) !in d.projections ==>
                     EdgesStayIn(d, TaskSeq(d.nextSeq + 1), pr.project))))
  {
    if ProjectionKey(pr.project, p.id) in d.projections {
      ReprojectionKeeps(d, pr, p);
    } else {
      NewProjectionKeepsIff(d, pr, p);
    }
  }

  lemma ReprojectedKeeps(d: Graph, pr: Principal, p: Projection)
    requires Sound(d) && ProjectionBound(d, pr, p) && ProjectionKey(pr.project, p.id) in d.projections
    ensures var k := ProjectionKey(pr.project, p.id);
            && d.projections[k] in d.nodes
            && var d' := Reprojected(d, d.nodes[d.projections[k]], p); Sound(d') && (WellFormed(d) ==> WellFormed(d'))
  {
    var k := ProjectionKey(pr.project, p.id);
    assert p.recipients[0] in p.recipients;
    assert ProjectionOk(d, k) && NodeOk(d, d.projections[k]);
    var r := d.nodes[d.projections[k]];
    var n := ProjectedNode(r.node.id, r.node.creator, p);
    ReplacingKeeps(d, r.(node := n, revision := r.revision + 1), Changed(r.node.subgraphs, n.subgraphs));
  }

  lemma ReprojectionKeeps(d: Graph, pr: Principal, p: Projection)
    requires Sound(d) && ProjectTaskContext(d, pr, p).Done? && ProjectionKey(pr.project, p.id) in d.projections
    ensures var d' := ProjectTaskContext(d, pr, p).value; Sound(d') && (WellFormed(d) ==> WellFormed(d'))
  {
    var k, d' := ProjectionKey(pr.project, p.id), ProjectTaskContext(d, pr, p).value;
    ReprojectedKeeps(d, pr, p);
    assert d' == d || d' == Reprojected(d, d.nodes[d.projections[k]], p);
  }

  lemma NewProjectionKeepsIff(d: Graph, pr: Principal, p: Projection)
    requires Sound(d) && ProjectionBound(d, pr, p) && ProjectionKey(pr.project, p.id) !in d.projections
    ensures var d' := ProjectTaskContext(d, pr, p).value;
            && Sound(d')
            && (WellFormed(d) ==> (WellFormed(d') <==> EdgesStayIn(d, TaskSeq(d.nextSeq + 1), pr.project)))
  {
    var k := ProjectionKey(pr.project, p.id);
    var n := ProjectedNode(TaskSeq(d.nextSeq + 1), pr.actor, p);
    var r := NodeRecord(n, 1, pr.project, d.nextSeq + 1);
    assert p.recipients[0] in p.recipients;
    forall x | x in d.projections ensures d.projections[x] != n.id { assert ProjectionOk(d, x); }
    StoringKeepsIff(d, r);
    var d1, d2 := Stored(d, r), ProjectTaskContext(d, pr, p).value;
    assert d2 == d1.(projections := d.projections[k := n.id], revision := d.revision + 1);
    AddedProjectionKeeps(d1, d2, k);
  }

  lemma AddedProjectionKeeps(d: Graph, d': Graph, k: ProjectionKey)
    requires Sound(d) && k in d'.projections
    requires d' == d.(projections := d.projections[k := d'.projections[k]], revision := d'.revision)
    requires ProjectionOk(d', k)
    ensures Sound(d') && (WellFormed(d) <==> WellFormed(d'))
  {
    forall id | id in d'.nodes ensures NodeOk(d', id) { assert NodeOk(d, id); }
    forall e | e in d'.edges ensures EdgeEnds(d', e) { assert EdgeEnds(d, e); }
    forall x | x in d'.bindings ensures BindingOk(d', x) { assert BindingOk(d, x); }
    forall x | x in d'.projections ensures ProjectionOk(d', x) {
      if x != k { assert ProjectionOk(d, x); }
    }
    forall a, b | a in d'.nodes && b in d'.nodes ensures OwnSequence(d', a, b) { assert OwnSequence(d, a, b); }
    if WellFormed(d) { EdgesStay(d, d'); }
    if WellFormed(d') { EdgesStay(d', d); }
  }

  // ---------------------------------------------------------------------------------------
  // Batches
  // ---------------------------------------------------------------------------------------

  /** Adding edges whose ends exist in one project. */
  lemma AddedEdgesKeep(d: Graph, es: set<Edge>)
    requires Sound(d) && forall e <- es :: EdgeOk(d, e)
    ensures var d' := d.(edges := d.edges + es); Sound(d') && (WellFormed(d) ==> WellFormed(d'))
  {
    var d' := d.(edges := d.edges + es);
    forall id | id in d'.nodes ensures NodeOk(d', id) { assert NodeOk(d, id); }
    forall e | e in d'.edges ensures EdgeEnds(d', e) {
      if e in es { assert EdgeOk(d, e); } else { assert EdgeEnds(d, e); }
    }
    forall k | k in d'.bindings ensures BindingOk(d', k) { assert BindingOk(d, k); }
    forall k | k in d'.projections ensures ProjectionOk(d', k) { assert ProjectionOk(d, k); }
    forall a, b | a in d'.nodes && b in d'.nodes ensures OwnSequence(d', a, b) { assert OwnSequence(d, a, b); }
    if WellFormed(d) {
      forall e | e in d'.edges ensures EdgeOk(d', e) { assert EdgeOk(d, e); }
    }
  }

  /** A batch node is linked inside its project only. */
  lemma CreationEdgesStay(d: Graph, pr: Principal, i: NodeInput)
    requires i.node.id in d.nodes && d.nodes[i.node.id].project == pr.project
    ensures forall e <- CreationEdges(d, pr, i) :: EdgeOk(d, e)
  {
  }

  lemma InputFits(d: Graph, pr: Principal, i: NodeInput)
    requires Sound(d) && AddInput(d, pr, i).Done?
    ensures FitsIn(d, NodeRecord(i.node, 1, pr.project, d.nextSeq + 1))
    ensures EdgesStayIn(d, i.node.id, pr.project) && NotProjected(d, i.node.id)
  {
    UnusedHasNoEdges(d, i.node.id, pr.project);
  }

  lemma AddInputKeeps(d: Graph, pr: Principal, i: NodeInput)
    requires Sound(d) && AddInput(d, pr, i).Done?
    ensures var d' := AddInput(d, pr, i).value; Sound(d') && (WellFormed(d) ==> WellFormed(d'))
  {
    var r := NodeRecord(i.node, 1, pr.project, d.nextSeq + 1);
    var s := Stored(d, r);
    var es := CreationEdges(s, pr, i);
    assert AddInput(d, pr, i).value == s.(edges := s.edges + es);
    assert Sound(s) && (WellFormed(d) ==> WellFormed(s)) by {
      InputFits(d, pr, i);
      StoringKeepsIff(d, r);
    }
    CreationEdgesStay(s, pr, i);
    AddedEdgesKeep(s, es);
  }

  lemma {:induction false} AddInputsKeeps(d: Graph, pr: Principal, inputs: seq<NodeInput>)
    requires Sound(d) && AddInputs(d, pr, inputs).Done?
    ensures var d' := AddInputs(d, pr, inputs).value; Sound(d') && (WellFormed(d) ==> WellFormed(d'))
    decreases |inputs|
  {
    if inputs != [] {
      AddInputKeeps(d, pr, inputs[0]);
      AddInputsKeeps(AddInput(d, pr, inputs[0]).value, pr, inputs[1..]);
    }
  }

  /** A batch stores exactly its own ids and takes one sequence number for each. */
  lemma {:induction false} AddInputsIds(d: Graph, pr: Principal, inputs: seq<NodeInput>)
    requires AddInputs(d, pr, inputs).Done?
    ensures AddInputs(d, pr, inputs).value.nextSeq == d.nextSeq + |inputs|
    ensures AddInputs(d, pr, inputs).value.nodes.Keys == d.nodes.Keys + (set i <- inputs :: i.node.id)
    decreases |inputs|
  {
    if inputs != [] {
      AddInputsIds(AddInput(d, pr, inputs[0]).value, pr, inputs[1..]);
      assert forall i :: i in inputs <==> i == inputs[0] || i in inputs[1..];
    }
  }

  lemma CreateNodesKeeps(d: Graph, pr: Principal, expected: int, inputs: seq<NodeInput>)
    requires Sound(d) && CreateNodes(d, pr, expected, inputs).Done?
    ensures var d' := CreateNodes(d, pr, expected, inputs).value; Sound(d') && (WellFormed(d) ==> WellFormed(d'))
  {
    AddInputsKeeps(d, pr, inputs);
    ShapeKeeps(AddInputs(d, pr, inputs).value, CreateNodes(d, pr, expected, inputs).value);
  }

  lemma FreshAfterAdding(d: Graph, d': Graph, ids: set<NodeId>)
    requires Fresh(d) && d'.nodes.Keys == d.nodes.Keys + ids && d'.nextSeq >= d.nextSeq
    ensures Fresh(d') <==> forall id <- ids :: NotAhead(d'.nextSeq, id)
  {
    forall id | id in d.nodes ensures NotAhead(d'.nextSeq, id) { assert NotAhead(d.nextSeq, id); }
  }

  /** A batch leaves the generated ids free exactly when none of its ids is one of them. */
  lemma CreateNodesFreshIff(d: Graph, pr: Principal, expected: int, inputs: seq<NodeInput>)
    requires Fresh(d) && CreateNodes(d, pr, expected, inputs).Done?
    ensures Fresh(CreateNodes(d, pr, expected, inputs).value)
            <==> forall i <- inputs :: NotAhead(d.nextSeq + |inputs|, i.node.id)
  {
    var d' := AddInputs(d, pr, inputs).value;
    var ids := set i <- inputs :: i.node.id;
    AddInputsIds(d, pr, inputs);
    FreshAfterAdding(d, d'.(revision := d'.revision + 1), ids);
    assert forall i <- inputs :: i.node.id in ids;
  }

  // ---------------------------------------------------------------------------------------
  // Review
  // ---------------------------------------------------------------------------------------

  /** What the graph has to offer a decision: general subgraphs the principal sees. */
  predicate SubgraphsOpen(d: Graph, pr: Principal, x: Decision) {
    forall g <- x.subgraphs ::
      g in d.subgraphs && CanSeeSubgraph(pr, d.subgraphs[g]) && d.subgraphs[g].kind == General
  }

  ghost predicate SamePlace(a: NodeRecord, b: NodeRecord) {
    && a.node.id == b.node.id && a.node.subgraphs == b.node.subgraphs
    && a.project == b.project && a.sequence == b.sequence && (a.revision >= 1 <==> b.revision >= 1)
  }

  /** Neither do the texts, statuses and revisions of nodes. */
  lemma TextsKeep(d: Graph, d': Graph)
    requires Sound(d) && d' == d.(nodes := d'.nodes) && d'.nodes.Keys == d.nodes.Keys
    requires forall id {:trigger d.nodes[id]} {:trigger d'.nodes[id]} | id in d.nodes ::
      SamePlace(d.nodes[id], d'.nodes[id])
    ensures Sound(d') && (WellFormed(d) <==> WellFormed(d'))
  {
    forall id | id in d'.nodes ensures NodeOk(d', id) { assert NodeOk(d, id); }
    forall e | e in d'.edges ensures EdgeEnds(d', e) { assert EdgeEnds(d, e); }
    forall k | k in d'.bindings ensures BindingOk(d', k) { assert BindingOk(d, k); }
    forall k | k in d'.projections ensures ProjectionOk(d', k) { assert ProjectionOk(d, k); }
    forall a, b | a in d'.nodes && b in d'.nodes ensures OwnSequence(d', a, b) { assert OwnSequence(d, a, b); }
    if WellFormed(d) { EdgesStay(d, d'); }
    if WellFormed(d') { EdgesStay(d', d); }
  }

  lemma MarkTargetKeepsIff(d: Graph, pr: Principal, x: Decision)
    requires Sound(d)
    ensures Sound(MarkTarget(d, pr, x)) && (WellFormed(d) <==> WellFormed(MarkTarget(d, pr, x)))
  {
    if x.target in d.nodes { assert NodeOk(d, x.target); }
    TextsKeep(d, MarkTarget(d, pr, x));
  }

  /** Applying one decision keeps the graph sound, and well formed exactly when it is a rejection or no edge at
      the id it generates leads into another project. */
  lemma ApplyDecisionKeepsIff(d: Graph, pr: Principal, x: Decision, sources: seq<string>)
    requires Sound(d) && (x.action == Reject || SubgraphsOpen(d, pr, x))
    ensures var d' := ApplyDecision(d, pr, x, sources);
            && Sound(d')
            && (WellFormed(d) ==> (WellFormed(d') <==>
                  x.action == Reject || EdgesStayIn(d, ReviewSeq(d.nextSeq + 1), pr.project)))
  {
    if x.action != Reject {
      var n := ReviewedNode(d, pr, x, sources);
      var r := NodeRecord(n, 1, pr.project, d.nextSeq + 1);
      GeneratedFits(d, pr, n);
      StoringKeepsIff(d, r);
      MarkTargetKeepsIff(Stored(d, r), pr, x);
    }
  }

  lemma ApplyDecisionIds(d: Graph, pr: Principal, x: Decision, sources: seq<string>)
    requires x.action != Reject
    ensures var d' := ApplyDecision(d, pr, x, sources);
            && d'.nodes.Keys == d.nodes.Keys + {ReviewSeq(d.nextSeq + 1)} && d'.nextSeq == d.nextSeq + 1
            && d'.subgraphs == Bump(d.subgraphs, UniqueSubgraphs(x.subgraphs))
  {
  }

  lemma ApplyDecisionFrame(d: Graph, pr: Principal, x: Decision, sources: seq<string>)
    ensures SameShape(d, ApplyDecision(d, pr, x, sources))
    ensures Fresh(d) ==> Fresh(ApplyDecision(d, pr, x, sources))
  {
    var d' := ApplyDecision(d, pr, x, sources);
    if x.action != Reject {
      ApplyDecisionIds(d, pr, x, sources);
      if Fresh(d) { FreshAfterAdding(d, d', {ReviewSeq(d.nextSeq + 1)}); }
    }
  }

  lemma FreshIdUnused(d: Graph, id: NodeId, project: ProjectId)
    requires Sound(d) && Fresh(d) && !NotAhead(d.nextSeq, id)
    ensures EdgesStayIn(d, id, project) && id !in d.nodes
  {
    UnusedHasNoEdges(d, id, project);
  }

  /** The subgraphs a review names are as open to the decisions still to come as they were at its start. */
  predicate AllOpen(d: Graph, pr: Principal, xs: seq<Decision>) {
    forall x <- xs :: x.action == Reject || SubgraphsOpen(d, pr, x)
  }

  lemma StillOpen(d: Graph, d': Graph, pr: Principal, xs: seq<Decision>)
    requires AllOpen(d, pr, xs) && SameShape(d, d') && xs != []
    ensures AllOpen(d', pr, xs[1..])
  {
    forall x | x in xs[1..] ensures x.action == Reject || SubgraphsOpen(d', pr, x) {
      assert x in xs;
    }
  }

  lemma {:induction false} ApplyDecisionsKeep(d: Graph, pr: Principal, xs: seq<Decision>, sources: seq<seq<string>>)
    requires Sound(d) && |xs| == |sources| && AllOpen(d, pr, xs)
    ensures var d' := ApplyDecisions(d, pr, xs, sources);
            && Sound(d') && (Fresh(d) ==> Fresh(d'))
            && (WellFormed(d) && Fresh(d) ==> WellFormed(d'))
    decreases |xs|
  {
    if xs != [] {
      var d' := ApplyDecision(d, pr, xs[0], sources[0]);
      assert xs[0] in xs;
      ApplyDecisionKeepsIff(d, pr, xs[0], sources[0]);
      ApplyDecisionFrame(d, pr, xs[0], sources[0]);
      if WellFormed(d) && Fresh(d) { FreshIdUnused(d, ReviewSeq(d.nextSeq + 1), pr.project); }
      StillOpen(d, d', pr, xs);
      ApplyDecisionsKeep(d', pr, xs[1..], sources[1..]);
    }
  }

  lemma ReviewBatchKeeps(d: Graph, pr: Principal, xs: seq<Decision>, sources: seq<seq<string>>)
    requires Sound(d) && |xs| == |sources| && ReviewBatch(d, pr, xs, sources).Done?
    ensures var d' := ReviewBatch(d, pr, xs, sources).value;
            && Sound(d') && (Fresh(d) ==> Fresh(d'))
            && (WellFormed(d) && Fresh(d) ==> WellFormed(d'))
  {
    assert AllOpen(d, pr, xs) by {
      forall x | x in xs ensures x.action == Reject || SubgraphsOpen(d, pr, x) { assert DecisionValid(d, pr, x); }
    }
    ApplyDecisionsKeep(d, pr, xs, sources);
    var d' := ApplyDecisions(d, pr, xs, sources);
    ShapeKeeps(d', d'.(revision := d'.revision + 1));
    if Fresh(d) { FreshAfterAdding(d', d'.(revision := d'.revision + 1), {}); }
  }

  // ---------------------------------------------------------------------------------------
  // Runs
  // ---------------------------------------------------------------------------------------

  datatype Step =
    | CreateNodeStep(pr: Principal, request: NodeRequest)
    | UpdateNodeStep(pr: Principal, node: NodeId, expected: int, request: NodeRequest)
    | DeleteNodeStep(pr: Principal, node: NodeId, expected: int)
    | CreateSubgraphStep(pr: Principal, name: string, summary: string, members: seq<NodeId>)
    | UpdateSubgraphStep(pr: Principal, subgraph: SubgraphId, expected: int, name: string, summary: string,
                         members: seq<NodeId>)
    | DeleteSubgraphStep(pr: Principal, subgraph: SubgraphId, expected: int)
    | CreateNodesStep(pr: Principal, expected: int, inputs: seq<NodeInput>)
    | RegisterStep(pr: Principal, task: TaskId, taskExists: bool)
    | ProjectStep(pr: Principal, projection: Projection)
    | ReviewStep(pr: Principal, decisions: seq<Decision>, sources: seq<seq<string>>)

  function Attempt(d: Graph, s: Step): Outcome<Graph> {
    match s
    case CreateNodeStep(pr, q) => CreateNode(d, pr, q)
    case UpdateNodeStep(pr, id, expected, q) => UpdateNode(d, pr, id, expected, q)
    case DeleteNodeStep(pr, id, expected) => DeleteNode(d, pr, id, expected)
    case CreateSubgraphStep(pr, name, summary, members) => CreateSubgraph(d, pr, name, summary, members)
    case UpdateSubgraphStep(pr, g, expected, name, summary, members) =>
      UpdateSubgraph(d, pr, g, expected, name, summary, members)
    case DeleteSubgraphStep(pr, g, expected) => DeleteSubgraph(d, pr, g, expected)
    case CreateNodesStep(pr, expected, inputs) => CreateNodes(d, pr, expected, inputs)
    case RegisterStep(pr, task, taskExists) => RegisterTaskSubgraph(d, pr, task, taskExists)
    case ProjectStep(pr, p) => ProjectTaskContext(d, pr, p)
    case ReviewStep(pr, xs, sources) => if |xs| == |sources| then ReviewBatch(d, pr, xs, sources) else Refused
  }

  function Apply(d: Graph, s: Step): Graph {
    var r := Attempt(d, s);
    if r.Done? then r.value else d
  }

  function After(d: Graph, steps: seq<Step>): Graph
    decreases |steps|
  {
    if steps == [] then d else After(Apply(d, steps[0]), steps[1..])
  }

  /** The ids a caller chooses are not ones the store has still to generate. */
  predicate KeepsClear(d: Graph, s: Step) {
    s.CreateNodesStep? ==> forall i <- s.inputs :: NotAhead(d.nextSeq + |s.inputs|, i.node.id)
  }

  predicate RunKeepsClear(d: Graph, steps: seq<Step>)
    decreases |steps|
  {
    steps == [] || (KeepsClear(d, steps[0]) && RunKeepsClear(Apply(d, steps[0]), steps[1..]))
  }

  lemma CreateSubgraphKeeps(d: Graph, pr: Principal, name: string, summary: string, members: seq<NodeId>)
    requires Sound(d) && CreateSubgraph(d, pr, name, summary, members).Done?
    ensures var d' := CreateSubgraph(d, pr, name, summary, members).value;
            Sound(d') && (WellFormed(d) ==> WellFormed(d'))
  {
    var g := FirstFree(d.subgraphs, |d.subgraphs| + 1);
    var r := SubgraphRecord(name, summary, 1, General, pr.project, "");
    assert CreateSubgraph(d, pr, name, summary, members).value == WithMembers(d, g, r, UniqueNodes(members));
    WithMembersKeeps(d, pr, g, r, UniqueNodes(members));
  }

  lemma UpdateSubgraphKeeps(d: Graph, pr: Principal, g: SubgraphId, expected: int, name: string, summary: string,
                            members: seq<NodeId>)
    requires Sound(d) && UpdateSubgraph(d, pr, g, expected, name, summary, members).Done?
    ensures var d' := UpdateSubgraph(d, pr, g, expected, name, summary, members).value;
            Sound(d') && (WellFormed(d) ==> WellFormed(d'))
  {
    var r := d.subgraphs[g].(name := name, summary := summary, revision := d.subgraphs[g].revision + 1);
    assert UpdateSubgraph(d, pr, g, expected, name, summary, members).value
        == WithMembers(d, g, r, UniqueNodes(members));
    WithMembersKeeps(d, pr, g, r, UniqueNodes(members));
  }

  lemma SubgraphStepKeeps(d: Graph, s: Step)
    requires Sound(d) && Attempt(d, s).Done?
    requires s.CreateSubgraphStep? || s.UpdateSubgraphStep? || s.DeleteSubgraphStep?
    ensures Sound(Apply(d, s)) && (WellFormed(d) ==> WellFormed(Apply(d, s)))
  {
    match s
    case CreateSubgraphStep(pr, name, summary, members) => CreateSubgraphKeeps(d, pr, name, summary, members);
    case UpdateSubgraphStep(pr, g, expected, name, summary, members) =>
      UpdateSubgraphKeeps(d, pr, g, expected, name, summary, members);
    case DeleteSubgraphStep(pr, g, expected) => DeleteSubgraphKeeps(d, pr, g, expected);
  }

  lemma NodeStepKeeps(d: Graph, s: Step)
    requires Sound(d) && Attempt(d, s).Done?
    requires !s.CreateSubgraphStep? && !s.UpdateSubgraphStep? && !s.DeleteSubgraphStep?
    ensures Sound(Apply(d, s)) && (WellFormed(d) && Fresh(d) ==> WellFormed(Apply(d, s)))
  {
    match s
    case CreateNodeStep(pr, q) =>
      if Fresh(d) { FreshIdUnused(d, NodeSeq(d.nextSeq + 1), pr.project); }
      CreateNodeKeepsIff(d, pr, q);
    case UpdateNodeStep(pr, id, expected, q) => UpdateNodeKeeps(d, pr, id, expected, q);
    case DeleteNodeStep(pr, id, expected) => DeleteNodeKeeps(d, pr, id, expected);
    case CreateNodesStep(pr, expected, inputs) => CreateNodesKeeps(d, pr, expected, inputs);
    case RegisterStep(pr, task, taskExists) => RegisterKeeps(d, pr, task, taskExists);
    case ProjectStep(pr, p) =>
      if Fresh(d) { FreshIdUnused(d, TaskSeq(d.nextSeq + 1), pr.project); }
      ProjectKeepsIff(d, pr, p);
    case ReviewStep(pr, xs, sources) => ReviewBatchKeeps(d, pr, xs, sources);
  }

  /** Every step keeps a graph sound, whatever ids callers choose. */
  lemma StepKeepsSound(d: Graph, s: Step)
    requires Sound(d)
    ensures Sound(Apply(d, s)) && (WellFormed(d) && Fresh(d) ==> WellFormed(Apply(d, s)))
  {
    if Attempt(d, s).Done? {
      if s.CreateSubgraphStep? || s.UpdateSubgraphStep? || s.DeleteSubgraphStep? {
        SubgraphStepKeeps(d, s);
      } else {
        NodeStepKeeps(d, s);
      }
    }
  }

  lemma {:induction false} RunKeepsSound(d: Graph, steps: seq<Step>)
    requires Sound(d)
    ensures Sound(After(d, steps))
    decreases |steps|
  {
    if steps != [] {
      StepKeepsSound(d, steps[0]);
      RunKeepsSound(Apply(d, steps[0]), steps[1..]);
    }
  }

  /** Every graph a run reaches from the empty one is sound: memberships and edge ends exist, memberships are in
      the node's project and all general or all of tasks, bindings and projections lead where they should, and no
      two nodes share a sequence number. */
  lemma EveryReachableGraphIsSound(steps: seq<Step>)
    ensures Sound(After(EMPTY, steps))
  {
    RunKeepsSound(EMPTY, steps);
  }

  /** The one id a step may generate outside a batch. */
  function Generated(d: Graph, s: Step): set<NodeId> {
    match s
    case CreateNodeStep(_, _) => {NodeSeq(d.nextSeq + 1)}
    case ProjectStep(_, _) => {TaskSeq(d.nextSeq + 1)}
    case _ => {}
  }

  lemma CuratorStepIds(d: Graph, s: Step)
    requires Sound(d) && Attempt(d, s).Done?
    requires s.CreateNodeStep? || s.UpdateNodeStep? || s.DeleteNodeStep? || s.CreateSubgraphStep?
          || s.UpdateSubgraphStep? || s.DeleteSubgraphStep?
    ensures Apply(d, s).nodes.Keys <= d.nodes.Keys + Generated(d, s)
    ensures Apply(d, s).nextSeq == d.nextSeq + |Generated(d, s)|
  {
    if s.UpdateNodeStep? { assert NodeOk(d, s.node); }
  }

  lemma ProjectStepIds(d: Graph, pr: Principal, p: Projection)
    requires Sound(d) && ProjectTaskContext(d, pr, p).Done?
    ensures var d' := ProjectTaskContext(d, pr, p).value;
            && d'.nextSeq >= d.nextSeq
            && d'.nodes.Keys <= d.nodes.Keys + (if d'.nextSeq == d.nextSeq then {} else {TaskSeq(d'.nextSeq)})
  {
    var k := ProjectionKey(pr.project, p.id);
    if k in d.projections { assert ProjectionOk(d, k) && NodeOk(d, d.projections[k]); }
  }

  lemma FreshWithin(d: Graph, d': Graph, ids: set<NodeId>)
    requires Fresh(d) && d'.nodes.Keys <= d.nodes.Keys + ids && d'.nextSeq >= d.nextSeq
    requires forall id <- ids :: NotAhead(d'.nextSeq, id)
    ensures Fresh(d')
  {
    forall id | id in d'.nodes ensures NotAhead(d'.nextSeq, id) {
      if id in d.nodes { assert NotAhead(d.nextSeq, id); }
    }
  }

  lemma CuratorStepKeepsFresh(d: Graph, s: Step)
    requires Sound(d) && Fresh(d) && Attempt(d, s).Done?
    requires s.CreateNodeStep? || s.UpdateNodeStep? || s.DeleteNodeStep? || s.CreateSubgraphStep?
          || s.UpdateSubgraphStep? || s.DeleteSubgraphStep?
    ensures Fresh(Apply(d, s))
  {
    CuratorStepIds(d, s);
    FreshWithin(d, Apply(d, s), Generated(d, s));
  }

  lemma StepKeepsFresh(d: Graph, s: Step)
    requires Sound(d) && Fresh(d) && KeepsClear(d, s)
    ensures Fresh(Apply(d, s))
  {
    if Attempt(d, s).Done? {
      match s
      case CreateNodesStep(pr, expected, inputs) => CreateNodesFreshIff(d, pr, expected, inputs);
      case RegisterStep(_, _, _) => FreshWithin(d, Apply(d, s), {});
      case ProjectStep(pr, p) =>
        var d' := Apply(d, s);
        ProjectStepIds(d, pr, p);
        FreshWithin(d, d', if d'.nextSeq == d.nextSeq then {} else {TaskSeq(d'.nextSeq)});
      case ReviewStep(pr, xs, sources) => ReviewBatchKeeps(d, pr, xs, sources);
      case _ => CuratorStepKeepsFresh(d, s);
    }
  }

  lemma {:induction false} RunKeepsWellFormed(d: Graph, steps: seq<Step>)
    requires WellFormed(d) && Fresh(d) && RunKeepsClear(d, steps)
    ensures WellFormed(After(d, steps)) && Fresh(After(d, steps))
    decreases |steps|
  {
    if steps != [] {
      StepKeepsSound(d, steps[0]);
      StepKeepsFresh(d, steps[0]);
      RunKeepsWellFormed(Apply(d, steps[0]), steps[1..]);
    }
  }

  /** Every graph a run reaches from the empty one also keeps projects apart, as long as no caller picks an id the
      store has still to generate. */
  lemma EveryReachableGraphIsWellFormed(steps: seq<Step>)
    requires RunKeepsClear(EMPTY, steps)
    ensures WellFormed(After(EMPTY, steps))
  {
    RunKeepsWellFormed(EMPTY, steps);
  }

  function Batch(pr: Principal): seq<NodeInput> {
    var first := Node(Named("a"), "fact", "s", "accepted", {}, {"src"}, pr.actor);
    [NodeInput(first, pr.actor, Named(""), {}),
     NodeInput(first.(id := NodeSeq(3)), pr.actor, Named("a"), {})]
  }

  /** Without that, a node of one project ends up joined to a node of another: a caller in the first project
      names its second node node-3 and links it, and the next node the second project creates takes that id. */
  lemma ChosenIdCrossesProjects(pr: Principal, other: Principal, q: NodeRequest)
    requires pr.project != other.project && pr.actor != "" && other.actor != ""
    requires q.statement != "" && ValidKind(q.kind) && q.subgraphs == [] && UniqueTexts(q.sources) != {}
    ensures !ProjectsApart(After(EMPTY, [CreateNodesStep(pr, 1, Batch(pr)), CreateNodeStep(other, q)]))
  {
    var b := Batch(pr);
    var d1 := AddInput(EMPTY, pr, b[0]).value;
    assert AddInput(EMPTY, pr, b[0]).Done?;
    assert AddInput(d1, pr, b[1]).Done?;
    var d2 := AddInput(d1, pr, b[1]).value;
    var e := Edge(FromNode(Named("a")), NodeSeq(3), "logical_adjacent");
    assert e in d2.edges;
    assert b[1..] == [b[1]] && b[1..][1..] == [];
    assert AddInputs(d1, pr, b[1..]) == Done(d2) by { assert AddInputs(d2, pr, []) == Done(d2); }
    assert AddInputs(EMPTY, pr, b) == Done(d2);
    var d3 := d2.(revision := 2);
    var steps := [CreateNodesStep(pr, 1, b), CreateNodeStep(other, q)];
    assert Apply(EMPTY, steps[0]) == d3;
    assert CreateNode(d3, other, q).Done?;
    var d4 := Apply(d3, steps[1]);
    assert steps[1..] == [steps[1]] && steps[1..][1..] == [];
    assert After(d3, steps[1..]) == d4 by { assert After(d4, []) == d4; }
    assert e in d4.edges && !EdgeOk(d4, e);
  }
}
