/** Exploring the context graph from an anchor: a breadth-first search cut off at a depth, against paths over
    visible edges.
 */
module ContextExplore {
  import opened ContextGraph
  import opened ContextGraphRuns

  // ---------------------------------------------------------------------------------------
  // Paths
  // ---------------------------------------------------------------------------------------

  predicate Visible(d: Graph, pr: Principal, id: NodeId) {
    id in d.nodes && CanSeeNode(pr, d.subgraphs, d.nodes[id])
  }

  predicate CanSeeEdge(d: Graph, pr: Principal, e: Edge) {
    && Visible(d, pr, e.to)
    && match e.origin
       case FromNode(id) => Visible(d, pr, id)
       case FromSubgraph(g) => g in d.subgraphs && CanSeeSubgraph(pr, d.subgraphs[g])
  }

  /** A visible edge joins the two nodes, whichever way it points. */
  ghost predicate Joined(d: Graph, pr: Principal, a: NodeId, b: NodeId) {
    exists e <- d.edges ::
      CanSeeEdge(d, pr, e) && ((e.origin == FromNode(a) && e.to == b) || (e.origin == FromNode(b) && e.to == a))
  }

  /** A walk over visible edges from a to b, named by the nodes it passes. */
  ghost predicate Walk(d: Graph, pr: Principal, a: NodeId, b: NodeId, p: seq<NodeId>) {
    && |p| > 0 && p[0] == a && p[|p| - 1] == b
    && forall i | 0 <= i < |p| - 1 :: Joined(d, pr, p[i], p[i + 1])
  }

  /** b is at undirected distance at most k from a. */
  ghost predicate Within(d: Graph, pr: Principal, a: NodeId, b: NodeId, k: nat) {
    exists p :: Walk(d, pr, a, b, p) && |p| <= k + 1
  }

  ghost predicate AtDistance(d: Graph, pr: Principal, a: NodeId, b: NodeId, k: nat) {
    Within(d, pr, a, b, k) && (k > 0 ==> !Within(d, pr, a, b, k - 1))
  }

  lemma WithinZero(d: Graph, pr: Principal, a: NodeId, b: NodeId)
    ensures Within(d, pr, a, b, 0) <==> a == b
  {
    if a == b { assert Walk(d, pr, a, b, [a]); }
  }

  /** The recurrence a breadth-first search follows. */
  lemma WithinNext(d: Graph, pr: Principal, a: NodeId, b: NodeId, k: nat)
    ensures Within(d, pr, a, b, k + 1) <==>
            Within(d, pr, a, b, k) || exists c :: Within(d, pr, a, c, k) && Joined(d, pr, c, b)
  {
    if Within(d, pr, a, b, k + 1) && !Within(d, pr, a, b, k) {
      var p :| Walk(d, pr, a, b, p) && |p| <= k + 2;
      var n := |p| - 1;
      assert Walk(d, pr, a, p[n - 1], p[..n]);
      assert Within(d, pr, a, p[n - 1], k) && Joined(d, pr, p[n - 1], p[n - 1 + 1]);
    }
    if c :| Within(d, pr, a, c, k) && Joined(d, pr, c, b) {
      var p :| Walk(d, pr, a, c, p) && |p| <= k + 1;
      var q := p + [b];
      forall i | 0 <= i < |q| - 1 ensures Joined(d, pr, q[i], q[i + 1]) {}
      assert Walk(d, pr, a, b, q);
    }
  }

  /** New nodes of the next ring are joined to the last ring, not to an earlier one. */
  lemma NextRing(d: Graph, pr: Principal, a: NodeId, b: NodeId, k: nat)
    ensures AtDistance(d, pr, a, b, k + 1) <==>
            !Within(d, pr, a, b, k) && exists c :: AtDistance(d, pr, a, c, k) && Joined(d, pr, c, b)
  {
    WithinNext(d, pr, a, b, k);
    if Within(d, pr, a, b, k + 1) && !Within(d, pr, a, b, k) {
      var c :| Within(d, pr, a, c, k) && Joined(d, pr, c, b);
      if k > 0 { WithinNext(d, pr, a, b, k - 1); }
      assert AtDistance(d, pr, a, c, k);
    }
  }

  // ---------------------------------------------------------------------------------------
  // Listing nodes
  // ---------------------------------------------------------------------------------------

  /** A node as the principal sees it: memberships it may not see are left out. */
  function VisibleNode(d: Graph, pr: Principal, n: Node): Node {
    n.(subgraphs := set g | g in n.subgraphs && g in d.subgraphs && CanSeeSubgraph(pr, d.subgraphs[g]))
  }

  /** The list shows exactly these nodes, each once, as the principal sees them. */
  ghost predicate Lists(d: Graph, pr: Principal, nodes: seq<Node>, ids: set<NodeId>) {
    && (forall n <- nodes :: n.id in ids && n.id in d.nodes && n == VisibleNode(d, pr, d.nodes[n.id].node))
    && (forall id <- ids :: exists n <- nodes :: n.id == id)
    && (forall i, j | 0 <= i < j < |nodes| :: nodes[i].id != nodes[j].id)
  }

  lemma ListOneMore(d: Graph, pr: Principal, nodes: seq<Node>, ids: set<NodeId>, id: NodeId)
    requires Lists(d, pr, nodes, ids) && id !in ids && id in d.nodes && d.nodes[id].node.id == id
    ensures Lists(d, pr, nodes + [VisibleNode(d, pr, d.nodes[id].node)], ids + {id})
  {
    var n := VisibleNode(d, pr, d.nodes[id].node);
    var nodes' := nodes + [n];
    assert n in nodes';
    forall x | x in ids ensures exists m <- nodes' :: m.id == x {
      var m :| m in nodes && m.id == x;
      assert m in nodes';
    }
  }

  ghost predicate Keyed(d: Graph) {
    forall id <- d.nodes :: d.nodes[id].node.id == id
  }

  // ---------------------------------------------------------------------------------------
  // The search
  // ---------------------------------------------------------------------------------------

  predicate Touches(current: NodeId, e: Edge) {
    e.origin == FromNode(current) || e.to == current
  }

  function OtherEnd(current: NodeId, e: Edge): NodeId {
    if e.to == current && e.origin.FromNode? then e.origin.node else e.to
  }

  predicate LeadsOn(d: Graph, pr: Principal, current: NodeId, e: Edge) {
    CanSeeEdge(d, pr, e) && Touches(current, e) && Visible(d, pr, OtherEnd(current, e))
  }

  /** The nodes some of the edges lead to from one node. */
  function Found(d: Graph, pr: Principal, current: NodeId, es: set<Edge>): set<NodeId> {
    set e | e in es && LeadsOn(d, pr, current, e) :: OtherEnd(current, e)
  }

  lemma FoundOneMore(d: Graph, pr: Principal, current: NodeId, es: set<Edge>, e: Edge)
    ensures Found(d, pr, current, es + {e})
         == Found(d, pr, current, es) + (if LeadsOn(d, pr, current, e) then {OtherEnd(current, e)} else {})
  {
    var more := if LeadsOn(d, pr, current, e) then {OtherEnd(current, e)} else {};
    forall x ensures x in Found(d, pr, current, es + {e}) <==> x in Found(d, pr, current, es) || x in more {}
  }

  lemma FoundSplit(d: Graph, pr: Principal, current: NodeId, todo: set<Edge>, e: Edge)
    requires e in todo && todo <= d.edges
    ensures Found(d, pr, current, d.edges - (todo - {e}))
         == Found(d, pr, current, d.edges - todo) + Found(d, pr, current, {e})
  {
    FoundOneMore(d, pr, current, d.edges - todo, e);
    FoundOneMore(d, pr, current, {}, e);
    assert {} + {e} == {e};
    assert d.edges - (todo - {e}) == (d.edges - todo) + {e};
  }

  /** An edge from a subgraph leads nowhere but back to the node it points to. */
  lemma FoundIsJoined(d: Graph, pr: Principal, current: NodeId, x: NodeId)
    requires x != current
    ensures x in Found(d, pr, current, d.edges) <==> Joined(d, pr, current, x)
  {
    if Joined(d, pr, current, x) {
      var e :| e in d.edges && CanSeeEdge(d, pr, e)
        && ((e.origin == FromNode(current) && e.to == x) || (e.origin == FromNode(x) && e.to == current));
      assert LeadsOn(d, pr, current, e) && OtherEnd(current, e) == x;
    }
  }

  /** From (added, next), finding f brings the search to (added', next'). */
  ghost predicate Grown(added: set<NodeId>, next: set<NodeId>, f: set<NodeId>, added': set<NodeId>, next': set<NodeId>)
  {
    added' == added + f && next' == next + (f - added)
  }

  lemma GrownTwice(added: set<NodeId>, next: set<NodeId>, f: set<NodeId>, added': set<NodeId>, next': set<NodeId>,
                   more: set<NodeId>, added'': set<NodeId>, next'': set<NodeId>)
    requires Grown(added, next, f, added', next') && Grown(added', next', more, added'', next'')
    ensures Grown(added, next, f + more, added'', next'')
  {
  }

  /** Follows one edge, adding what was not seen before to the list and to the next ring. */
  method FollowEdge(d: Graph, pr: Principal, current: NodeId, e: Edge,
                    nodes: seq<Node>, added: set<NodeId>, next: set<NodeId>)
    returns (nodes': seq<Node>, added': set<NodeId>, next': set<NodeId>)
    requires Keyed(d) && Lists(d, pr, nodes, added)
    ensures Grown(added, next, Found(d, pr, current, {e}), added', next') && Lists(d, pr, nodes', added')
  {
    nodes', added', next' := nodes, added, next;
    FoundOneMore(d, pr, current, {}, e);
    assert {} + {e} == {e};
    if LeadsOn(d, pr, current, e) {
      var other := OtherEnd(current, e);
      if other !in added {
        ListOneMore(d, pr, nodes, added, other);
        nodes', added', next' := nodes + [VisibleNode(d, pr, d.nodes[other].node)], added + {other}, next + {other};
      }
    }
  }

  method ExpandOne(d: Graph, pr: Principal, current: NodeId, nodes: seq<Node>, added: set<NodeId>, next: set<NodeId>)
    returns (nodes': seq<Node>, added': set<NodeId>, next': set<NodeId>)
    requires Keyed(d) && Lists(d, pr, nodes, added)
    ensures Grown(added, next, Found(d, pr, current, d.edges), added', next') && Lists(d, pr, nodes', added')
  {
    nodes', added', next' := nodes, added, next;
    var todo := d.edges;
    assert d.edges - todo == {};
    while todo != {}
      invariant todo <= d.edges
      invariant Grown(added, next, Found(d, pr, current, d.edges - todo), added', next')
      invariant Lists(d, pr, nodes', added')
      decreases |todo|
    {
      var e :| e in todo;
      FoundSplit(d, pr, current, todo, e);
      ghost var a, n := added', next';
      nodes', added', next' := FollowEdge(d, pr, current, e, nodes', added', next');
      GrownTwice(added, next, Found(d, pr, current, d.edges - todo), a, n, Found(d, pr, current, {e}), added', next');
      todo := todo - {e};
    }
    assert d.edges - todo == d.edges;
  }

  /** The nodes the edges lead to from any of a set of nodes. */
  function FoundFrom(d: Graph, pr: Principal, ring: set<NodeId>): set<NodeId> {
    set c, x | c in ring && x in Found(d, pr, c, d.edges) :: x
  }

  lemma FoundFromOneMore(d: Graph, pr: Principal, ring: set<NodeId>, c: NodeId)
    ensures FoundFrom(d, pr, ring + {c}) == FoundFrom(d, pr, ring) + Found(d, pr, c, d.edges)
  {
  }

  lemma FoundFromSplit(d: Graph, pr: Principal, ring: set<NodeId>, todo: set<NodeId>, c: NodeId)
    requires c in todo && todo <= ring
    ensures FoundFrom(d, pr, ring - (todo - {c})) == FoundFrom(d, pr, ring - todo) + Found(d, pr, c, d.edges)
  {
    FoundFromOneMore(d, pr, ring - todo, c);
    assert ring - (todo - {c}) == (ring - todo) + {c};
  }

  method ExpandRing(d: Graph, pr: Principal, ring: set<NodeId>, nodes: seq<Node>, added: set<NodeId>)
    returns (nodes': seq<Node>, added': set<NodeId>, next: set<NodeId>)
    requires Keyed(d) && Lists(d, pr, nodes, added)
    ensures Grown(added, {}, FoundFrom(d, pr, ring), added', next) && Lists(d, pr, nodes', added')
  {
    nodes', added', next := nodes, added, {};
    var todo := ring;
    assert ring - todo == {};
    while todo != {}
      invariant todo <= ring
      invariant Grown(added, {}, FoundFrom(d, pr, ring - todo), added', next)
      invariant Lists(d, pr, nodes', added')
      decreases |todo|
    {
      var c :| c in todo;
      FoundFromSplit(d, pr, ring, todo, c);
      ghost var a, n := added', next;
      nodes', added', next := ExpandOne(d, pr, c, nodes', added', next);
      GrownTwice(added, {}, FoundFrom(d, pr, ring - todo), a, n, Found(d, pr, c, d.edges), added', next);
      todo := todo - {c};
    }
    assert ring - todo == ring;
  }

  /** The ring after ring k is ring k + 1. */
  lemma RingGrows(d: Graph, pr: Principal, a: NodeId, k: nat, ring: set<NodeId>, added: set<NodeId>, x: NodeId)
    requires forall y :: y in ring <==> AtDistance(d, pr, a, y, k)
    requires forall y :: y in added <==> Within(d, pr, a, y, k)
    ensures x in added + FoundFrom(d, pr, ring) <==> Within(d, pr, a, x, k + 1)
    ensures x in FoundFrom(d, pr, ring) - added <==> AtDistance(d, pr, a, x, k + 1)
  {
    NextRing(d, pr, a, x, k);
    WithinNext(d, pr, a, x, k);
    if x !in added {
      if x in FoundFrom(d, pr, ring) {
        var c :| c in ring && x in Found(d, pr, c, d.edges);
        FoundIsJoined(d, pr, c, x);
      }
      if c :| AtDistance(d, pr, a, c, k) && Joined(d, pr, c, x) {
        FoundIsJoined(d, pr, c, x);
      }
    }
  }

  method ExpandNode(d: Graph, pr: Principal, anchor: NodeId, depth: nat)
    returns (nodes: seq<Node>, frontier: set<NodeId>)
    requires Keyed(d) && Visible(d, pr, anchor)
    ensures exists ids :: Lists(d, pr, nodes, ids) && forall x :: x in ids <==> Within(d, pr, anchor, x, depth)
    ensures forall x :: x in frontier <==> AtDistance(d, pr, anchor, x, depth)
  {
    nodes := [VisibleNode(d, pr, d.nodes[anchor].node)];
    var added := {anchor};
    frontier := {anchor};
    assert nodes[0] in nodes;
    forall x ensures x in added <==> Within(d, pr, anchor, x, 0) { WithinZero(d, pr, anchor, x); }
    for i := 0 to depth
      invariant Lists(d, pr, nodes, added)
      invariant forall x :: x in added <==> Within(d, pr, anchor, x, i)
      invariant forall x :: x in frontier <==> AtDistance(d, pr, anchor, x, i)
    {
      forall x
        ensures x in added + FoundFrom(d, pr, frontier) <==> Within(d, pr, anchor, x, i + 1)
        ensures x in FoundFrom(d, pr, frontier) - added <==> AtDistance(d, pr, anchor, x, i + 1)
      {
        RingGrows(d, pr, anchor, i, frontier, added, x);
      }
      nodes, added, frontier := ExpandRing(d, pr, frontier, nodes, added);
    }
  }

  // ---------------------------------------------------------------------------------------
  // Nodes in the order they were created
  // ---------------------------------------------------------------------------------------

  ghost predicate InOrder(d: Graph, ids: seq<NodeId>) {
    && (forall id <- ids :: id in d.nodes)
    && forall i, j | 0 <= i < j < |ids| :: d.nodes[ids[i]].sequence < d.nodes[ids[j]].sequence
  }

  method Earliest(d: Graph, ids: set<NodeId>) returns (first: NodeId)
    requires Sound(d) && ids != {} && ids <= d.nodes.Keys
    ensures first in ids && forall id <- ids :: id != first ==> d.nodes[first].sequence < d.nodes[id].sequence
  {
    first :| first in ids;
    var todo := ids - {first};
    while todo != {}
      invariant todo <= ids && first in ids && first !in todo
      invariant forall id <- ids - todo :: id != first ==> d.nodes[first].sequence < d.nodes[id].sequence
      decreases |todo|
    {
      var id :| id in todo;
      assert OwnSequence(d, first, id);
      if d.nodes[id].sequence < d.nodes[first].sequence { first := id; }
      todo := todo - {id};
    }
  }

  /** Every node once, in the order of creation. */
  method SortedNodes(d: Graph) returns (ids: seq<NodeId>)
    requires Sound(d)
    ensures InOrder(d, ids) && forall id :: id in ids <==> id in d.nodes
  {
    ids := [];
    var rest := d.nodes.Keys;
    while rest != {}
      invariant rest <= d.nodes.Keys && InOrder(d, ids)
      invariant forall id :: id in ids <==> id in d.nodes.Keys - rest
      invariant forall a, b | a in ids && b in rest :: d.nodes[a].sequence < d.nodes[b].sequence
      decreases |rest|
    {
      var first := Earliest(d, rest);
      ids, rest := ids + [first], rest - {first};
    }
  }

  // ---------------------------------------------------------------------------------------
  // Explore
  // ---------------------------------------------------------------------------------------

  datatype Anchor = NoAnchor | AtSubgraph(subgraph: SubgraphId) | AtNode(node: NodeId) | Unreadable

  datatype Explored = Explored(nodes: seq<Node>, frontier: set<NodeId>, revision: int)

  predicate Inside(d: Graph, pr: Principal, g: SubgraphId, id: NodeId) {
    Visible(d, pr, id) && g in d.nodes[id].node.subgraphs
  }

  ghost predicate NodesInOrder(d: Graph, nodes: seq<Node>) {
    InOrder(d, seq(|nodes|, i requires 0 <= i < |nodes| => nodes[i].id))
  }

  method Members(d: Graph, pr: Principal, g: SubgraphId) returns (nodes: seq<Node>, ids: set<NodeId>)
    requires Sound(d)
    ensures Lists(d, pr, nodes, ids) && NodesInOrder(d, nodes)
    ensures forall id :: id in ids <==> Inside(d, pr, g, id)
  {
    var all := SortedNodes(d);
    nodes, ids := [], {};
    for i := 0 to |all|
      invariant Lists(d, pr, nodes, ids)
      invariant forall id :: id in ids <==> id in all[..i] && Inside(d, pr, g, id)
      invariant NodesInOrder(d, nodes)
    {
      var id := all[i];
      assert NodeOk(d, id);
      assert id !in all[..i] by { if id in all[..i] { assert false; } }
      if Inside(d, pr, g, id) {
        ListOneMore(d, pr, nodes, ids, id);
        AppendInOrder(d, nodes, all, i, VisibleNode(d, pr, d.nodes[id].node));
        nodes, ids := nodes + [VisibleNode(d, pr, d.nodes[id].node)], ids + {id};
      }
    }
  }

  lemma AppendInOrder(d: Graph, nodes: seq<Node>, all: seq<NodeId>, i: nat, n: Node)
    requires InOrder(d, all) && i < |all| && n.id == all[i]
    requires NodesInOrder(d, nodes) && forall m <- nodes :: m.id in all[..i]
    ensures NodesInOrder(d, nodes + [n])
  {
    var nodes' := nodes + [n];
    var ids' := seq(|nodes'|, k requires 0 <= k < |nodes'| => nodes'[k].id);
    var ids := seq(|nodes|, k requires 0 <= k < |nodes| => nodes[k].id);
    assert ids' == ids + [all[i]];
    forall id | id in ids' ensures id in d.nodes {}
    forall k | 0 <= k < |ids| ensures d.nodes[ids[k]].sequence < d.nodes[all[i]].sequence {
      assert nodes[k] in nodes;
    }
  }

  /** What an exploration returns. From a node: exactly the nodes at undirected distance at most the depth over
      visible edges, each once, with those at exactly that distance as the frontier; a depth below one counts
      as one. From a subgraph: its visible members in the order of creation, all of them on the frontier. */
  method Explore(d: Graph, pr: Principal, anchor: Anchor, depth: int) returns (r: Outcome<Explored>)
    requires Sound(d)
    ensures r.Done? <==> match anchor
                         case NoAnchor => true
                         case AtSubgraph(g) => g in d.subgraphs && CanSeeSubgraph(pr, d.subgraphs[g])
                         case AtNode(id) => Visible(d, pr, id)
                         case Unreadable => false
    ensures r.Done? ==> r.value.revision == d.revision
    ensures r.Done? && anchor == NoAnchor ==> r.value.nodes == [] && r.value.frontier == {}
    ensures r.Done? && anchor.AtSubgraph? ==>
      Lists(d, pr, r.value.nodes, r.value.frontier) && NodesInOrder(d, r.value.nodes)
    ensures r.Done? && anchor.AtSubgraph? ==>
      forall id :: id in r.value.frontier <==> Inside(d, pr, anchor.subgraph, id)
    ensures r.Done? && anchor.AtNode? ==>
      exists ids :: Lists(d, pr, r.value.nodes, ids)
                 && forall x :: x in ids <==> Within(d, pr, anchor.node, x, if depth <= 0 then 1 else depth)
    ensures r.Done? && anchor.AtNode? ==>
      forall x :: x in r.value.frontier <==> AtDistance(d, pr, anchor.node, x, if depth <= 0 then 1 else depth)
  {
    match anchor
    case NoAnchor => r := Done(Explored([], {}, d.revision));
    case Unreadable => r := Refused;
    case AtSubgraph(g) =>
      if g !in d.subgraphs || !CanSeeSubgraph(pr, d.subgraphs[g]) { return Refused; }
      var nodes, ids := Members(d, pr, g);
      r := Done(Explored(nodes, ids, d.revision));
    case AtNode(id) =>
      if !Visible(d, pr, id) { return Refused; }
      forall x | x in d.nodes ensures d.nodes[x].node.id == x { assert NodeOk(d, x); }
      var nodes, frontier := ExpandNode(d, pr, id, if depth <= 0 then 1 else depth);
      r := Done(Explored(nodes, frontier, d.revision));
  }
}
