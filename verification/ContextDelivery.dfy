/** Subscriptions, the deltas a change fans out to them, and the context slices they give an invocation. Ids
    the store generates from a counter are that number.
 */
module ContextDelivery {
  import opened ContextGraph
  import opened ContextGraphRuns
  import opened ContextExplore

  type InvocationId = string

  datatype Source = Explicit | Initial | FromSearch

  datatype Subscription = Subscription(
    project: ProjectId, task: TaskId, invocation: InvocationId, source: Source,
    subgraphs: set<SubgraphId>, kinds: set<string>, active: bool)

  datatype Delta = Delta(
    project: ProjectId, subscription: nat, invocation: InvocationId,
    event: string, kind: string, subgraphs: set<SubgraphId>, revision: int)

  datatype Slice = Slice(nodes: seq<Node>, subscriptions: set<nat>, revision: int)

  datatype InvocationKey = InvocationKey(project: ProjectId, invocation: InvocationId)

  datatype Delivery = Delivery(
    subscriptions: map<nat, Subscription>,
    deltas: map<nat, Delta>,
    acked: set<nat>,
    slices: map<InvocationKey, Slice>)

  const NOTHING := Delivery(map[], map[], {}, map[])

  /** Ids handed out so far are exactly 1 to the size of the map. */
  ghost predicate Counted<T>(m: map<nat, T>) {
    forall id: nat :: id in m <==> 1 <= id <= |m|
  }

  lemma CountOneMore<T>(m: map<nat, T>, x: T)
    requires Counted(m)
    ensures |m| + 1 !in m && Counted(m[|m| + 1 := x]) && |m[|m| + 1 := x]| == |m| + 1
  {
  }

  // ---------------------------------------------------------------------------------------
  // Subscribing
  // ---------------------------------------------------------------------------------------

  /** The id a new subscription takes. The search for one that is free ends exactly when the first two numbers
      after the count are not both taken. */
  method FreshSubscriptionId(subscriptions: map<nat, Subscription>) returns (id: nat)
    requires |subscriptions| + 1 !in subscriptions || |subscriptions| + 2 !in subscriptions
    ensures id !in subscriptions
    ensures id == if |subscriptions| + 1 in subscriptions then |subscriptions| + 2 else |subscriptions| + 1
  {
    id := |subscriptions| + 1;
    while id in subscriptions
      invariant id == |subscriptions| + 1 || (id == |subscriptions| + 2 && |subscriptions| + 1 in subscriptions)
      decreases |subscriptions| + 2 - id
    {
      id := |subscriptions| + 2;
    }
  }

  datatype SubscribeRequest = SubscribeRequest(
    invocation: InvocationId, task: TaskId, source: Source, subgraphs: seq<SubgraphId>, kinds: seq<string>)

  predicate Subscribable(d: Graph, pr: Principal, q: SubscribeRequest) {
    && q.invocation != "" && q.subgraphs != []
    && forall g <- UniqueSubgraphs(q.subgraphs) :: g in d.subgraphs && CanSeeSubgraph(pr, d.subgraphs[g])
  }

  function NewSubscription(pr: Principal, q: SubscribeRequest): Subscription {
    Subscription(pr.project, q.task, q.invocation, q.source, UniqueSubgraphs(q.subgraphs), UniqueTexts(q.kinds), true)
  }

  function Subscribe(v: Delivery, d: Graph, pr: Principal, q: SubscribeRequest): Outcome<Delivery> {
    if !Subscribable(d, pr, q) then Refused
    else Done(v.(subscriptions := v.subscriptions[|v.subscriptions| + 1 := NewSubscription(pr, q)]))
  }

  function Unsubscribe(v: Delivery, pr: Principal, id: nat): Outcome<Delivery> {
    if id !in v.subscriptions || v.subscriptions[id].project != pr.project
       || v.subscriptions[id].invocation != pr.invocation then Refused
    else Done(v.(subscriptions := v.subscriptions[id := v.subscriptions[id].(active := false)]))
  }

  predicate Of(s: Subscription, project: ProjectId, invocation: InvocationId) {
    s.project == project && s.invocation == invocation && s.active
  }

  function Expired(subscriptions: map<nat, Subscription>, project: ProjectId, invocation: InvocationId)
    : map<nat, Subscription>
  {
    map id | id in subscriptions ::
      if Of(subscriptions[id], project, invocation) then subscriptions[id].(active := false) else subscriptions[id]
  }

  /** Every active subscription of the principal's invocation expires. */
  function EndInvocation(v: Delivery, pr: Principal): Delivery {
    v.(subscriptions := Expired(v.subscriptions, pr.project, pr.invocation))
  }

  // ---------------------------------------------------------------------------------------
  // Deltas
  // ---------------------------------------------------------------------------------------

  /** A change: who made it, what it touched, and the graph it left. */
  datatype Event = Event(project: ProjectId, id: string, kind: string, touched: set<SubgraphId>, revision: int)

  predicate SubscriptionSees(s: Subscription, g: SubgraphRecord) {
    s.project == g.project && (g.kind == General || (s.task != "" && g.task == s.task))
  }

  function VisibleTouched(s: Subscription, subgraphs: map<SubgraphId, SubgraphRecord>, touched: set<SubgraphId>)
    : set<SubgraphId>
  {
    set g | g in touched && g in s.subgraphs && g in subgraphs && SubscriptionSees(s, subgraphs[g])
  }

  /** The subscription is to hear of the event. */
  predicate Hears(s: Subscription, subgraphs: map<SubgraphId, SubgraphRecord>, e: Event) {
    && s.project == e.project && s.active && (s.kinds == {} || e.kind in s.kinds)
    && VisibleTouched(s, subgraphs, e.touched) != {}
  }

  function Audience(subscriptions: map<nat, Subscription>, subgraphs: map<SubgraphId, SubgraphRecord>,
                    e: Event): set<nat>
  {
    set id | id in subscriptions && Hears(subscriptions[id], subgraphs, e)
  }

  function DeltaFor(subscriptions: map<nat, Subscription>, subgraphs: map<SubgraphId, SubgraphRecord>, e: Event,
                    id: nat): Delta
    requires id in subscriptions
  {
    var s := subscriptions[id];
    Delta(e.project, id, s.invocation, e.id, e.kind, VisibleTouched(s, subgraphs, e.touched), e.revision)
  }

  /** One delta for each subscription listed, in the order of the list. */
  function AddDeltas(deltas: map<nat, Delta>, subscriptions: map<nat, Subscription>,
                     subgraphs: map<SubgraphId, SubgraphRecord>, e: Event, order: seq<nat>): map<nat, Delta>
    requires forall id <- order :: id in subscriptions
  {
    if order == [] then deltas
    else
      var last := order[|order| - 1];
      var rest := AddDeltas(deltas, subscriptions, subgraphs, e, order[..|order| - 1]);
      rest[|rest| + 1 := DeltaFor(subscriptions, subgraphs, e, last)]
  }

  /** The list names each element of the set once. */
  ghost predicate Enumerates(order: seq<nat>, ids: set<nat>) {
    && (forall id :: id in order <==> id in ids)
    && forall i, j | 0 <= i < j < |order| :: order[i] != order[j]
  }

  /** One delta is added for each subscription that hears of the event, in some order. */
  ghost predicate FansOut(deltas: map<nat, Delta>, deltas': map<nat, Delta>, subscriptions: map<nat, Subscription>,
                          subgraphs: map<SubgraphId, SubgraphRecord>, e: Event)
  {
    exists order :: Enumerates(order, Audience(subscriptions, subgraphs, e))
                 && deltas' == AddDeltas(deltas, subscriptions, subgraphs, e, order)
  }

  /** Old deltas stay, and the i-th subscription listed has the i-th new number. */
  ghost predicate Listed(deltas: map<nat, Delta>, deltas': map<nat, Delta>, subscriptions: map<nat, Subscription>,
                         subgraphs: map<SubgraphId, SubgraphRecord>, e: Event, order: seq<nat>)
  {
    && (forall id <- order :: id in subscriptions)
    && Counted(deltas) && Counted(deltas') && |deltas'| == |deltas| + |order|
    && (forall k <- deltas :: deltas'[k] == deltas[k])
    && forall k: nat | |deltas| < k <= |deltas'| ::
         deltas'[k] == DeltaFor(subscriptions, subgraphs, e, order[k - |deltas| - 1])
  }

  lemma ListedMore(deltas: map<nat, Delta>, rest: map<nat, Delta>, subscriptions: map<nat, Subscription>,
                   subgraphs: map<SubgraphId, SubgraphRecord>, e: Event, front: seq<nat>, id: nat)
    requires Listed(deltas, rest, subscriptions, subgraphs, e, front) && id in subscriptions
    ensures Listed(deltas, rest[|rest| + 1 := DeltaFor(subscriptions, subgraphs, e, id)], subscriptions, subgraphs,
                   e, front + [id])
  {
    CountOneMore(rest, DeltaFor(subscriptions, subgraphs, e, id));
  }

  lemma {:induction false} AddDeltasAt(deltas: map<nat, Delta>, subscriptions: map<nat, Subscription>,
                                       subgraphs: map<SubgraphId, SubgraphRecord>, e: Event, order: seq<nat>)
    requires Counted(deltas) && (forall id <- order :: id in subscriptions)
    ensures Listed(deltas, AddDeltas(deltas, subscriptions, subgraphs, e, order), subscriptions, subgraphs, e, order)
  {
    if order != [] {
      var front, last := order[..|order| - 1], order[|order| - 1];
      var rest := AddDeltas(deltas, subscriptions, subgraphs, e, front);
      var all := rest[|rest| + 1 := DeltaFor(subscriptions, subgraphs, e, last)];
      assert order == front + [last] && AddDeltas(deltas, subscriptions, subgraphs, e, order) == all;
      assert Listed(deltas, all, subscriptions, subgraphs, e, front + [last]) by {
        AddDeltasAt(deltas, subscriptions, subgraphs, e, front);
        ListedMore(deltas, rest, subscriptions, subgraphs, e, front, last);
      }
    }
  }

  /** Exactly one of the deltas added is for the subscription. */
  ghost predicate GotOne(deltas: map<nat, Delta>, deltas': map<nat, Delta>, s: nat) {
    exists k :: k in deltas' && k !in deltas && deltas'[k].subscription == s
             && forall j :: j in deltas' && j !in deltas && deltas'[j].subscription == s ==> j == k
  }

  ghost predicate GotNone(deltas: map<nat, Delta>, deltas': map<nat, Delta>, s: nat) {
    forall j :: j in deltas' && j !in deltas ==> deltas'[j].subscription != s
  }

  /** The new deltas are for the subscriptions listed, in that order. */
  ghost predicate Placed(deltas: map<nat, Delta>, deltas': map<nat, Delta>, order: seq<nat>) {
    && Counted(deltas) && Counted(deltas') && |deltas'| == |deltas| + |order|
    && forall k: nat | |deltas| < k <= |deltas'| :: deltas'[k].subscription == order[k - |deltas| - 1]
  }

  lemma PlacedOnce(deltas: map<nat, Delta>, deltas': map<nat, Delta>, order: seq<nat>, i: nat)
    requires Placed(deltas, deltas', order) && i < |order|
    requires forall j | 0 <= j < |order| && order[j] == order[i] :: j == i
    ensures GotOne(deltas, deltas', order[i])
  {
    var k := |deltas| + 1 + i;
    assert k in deltas' && k !in deltas && deltas'[k].subscription == order[i];
    forall j | j in deltas' && j !in deltas && deltas'[j].subscription == order[i] ensures j == k {
      assert order[j - |deltas| - 1] == order[i];
    }
  }

  lemma PlacedNone(deltas: map<nat, Delta>, deltas': map<nat, Delta>, order: seq<nat>, s: nat)
    requires Placed(deltas, deltas', order) && s !in order
    ensures GotNone(deltas, deltas', s)
  {
  }

  lemma ListedIsPlaced(deltas: map<nat, Delta>, deltas': map<nat, Delta>, subscriptions: map<nat, Subscription>,
                       subgraphs: map<SubgraphId, SubgraphRecord>, e: Event, order: seq<nat>)
    requires Listed(deltas, deltas', subscriptions, subgraphs, e, order)
    ensures Placed(deltas, deltas', order)
  {
    forall k: nat | |deltas| < k <= |deltas'| ensures deltas'[k].subscription == order[k - |deltas| - 1] {
      assert order[k - |deltas| - 1] in order;
    }
  }

  lemma AddDeltasPlaced(deltas: map<nat, Delta>, subscriptions: map<nat, Subscription>,
                        subgraphs: map<SubgraphId, SubgraphRecord>, e: Event, order: seq<nat>)
    requires Counted(deltas) && (forall id <- order :: id in subscriptions)
    ensures Placed(deltas, AddDeltas(deltas, subscriptions, subgraphs, e, order), order)
  {
    AddDeltasAt(deltas, subscriptions, subgraphs, e, order);
    ListedIsPlaced(deltas, AddDeltas(deltas, subscriptions, subgraphs, e, order), subscriptions, subgraphs, e, order);
  }

  lemma SomeIndex(order: seq<nat>, ids: set<nat>, s: nat) returns (i: nat)
    requires Enumerates(order, ids) && s in ids
    ensures i < |order| && order[i] == s && forall j | 0 <= j < |order| && order[j] == s :: j == i
  {
    assert s in order;
    i :| i < |order| && order[i] == s;
  }

  /** Whatever order the subscriptions are walked in, a change gives exactly one new delta to each active
      subscription of the project whose filter admits it and that sees a touched subgraph, and none to others. */
  lemma EachSubscriberHearsOnce(deltas: map<nat, Delta>, deltas': map<nat, Delta>,
                                subscriptions: map<nat, Subscription>,
                                subgraphs: map<SubgraphId, SubgraphRecord>, e: Event, s: nat)
    requires Counted(deltas) && FansOut(deltas, deltas', subscriptions, subgraphs, e)
    ensures if s in subscriptions && Hears(subscriptions[s], subgraphs, e)
            then GotOne(deltas, deltas', s) else GotNone(deltas, deltas', s)
  {
    var order :| Enumerates(order, Audience(subscriptions, subgraphs, e))
              && deltas' == AddDeltas(deltas, subscriptions, subgraphs, e, order);
    AddDeltasPlaced(deltas, subscriptions, subgraphs, e, order);
    if s in Audience(subscriptions, subgraphs, e) {
      var i := SomeIndex(order, Audience(subscriptions, subgraphs, e), s);
      PlacedOnce(deltas, deltas', order, i);
    } else {
      PlacedNone(deltas, deltas', order, s);
    }
  }

  /** Earlier deltas are as they were, ids stay counted, and each new delta tells its subscription exactly the
      touched subgraphs it sees. */
  lemma FanOutKeeps(deltas: map<nat, Delta>, deltas': map<nat, Delta>, subscriptions: map<nat, Subscription>,
                    subgraphs: map<SubgraphId, SubgraphRecord>, e: Event)
    requires Counted(deltas) && FansOut(deltas, deltas', subscriptions, subgraphs, e)
    ensures Counted(deltas') && |deltas'| == |deltas| + |Audience(subscriptions, subgraphs, e)|
    ensures forall k <- deltas :: k in deltas' && deltas'[k] == deltas[k]
    ensures forall k | k in deltas' && k !in deltas ::
              && deltas'[k].subscription in subscriptions
              && deltas'[k] == DeltaFor(subscriptions, subgraphs, e, deltas'[k].subscription)
  {
    var order :| Enumerates(order, Audience(subscriptions, subgraphs, e))
              && deltas' == AddDeltas(deltas, subscriptions, subgraphs, e, order);
    AddDeltasAt(deltas, subscriptions, subgraphs, e, order);
    EnumerationSize(order, Audience(subscriptions, subgraphs, e));
    forall k | k in deltas' && k !in deltas
      ensures deltas'[k].subscription in subscriptions
      ensures deltas'[k] == DeltaFor(subscriptions, subgraphs, e, deltas'[k].subscription)
    {
      assert order[k - |deltas| - 1] in order;
    }
  }

  /** An event nobody hears of adds nothing. */
  lemma UnheardAddsNothing(deltas: map<nat, Delta>, deltas': map<nat, Delta>, subscriptions: map<nat, Subscription>,
                           subgraphs: map<SubgraphId, SubgraphRecord>, e: Event)
    requires FansOut(deltas, deltas', subscriptions, subgraphs, e) && Audience(subscriptions, subgraphs, e) == {}
    ensures deltas' == deltas
  {
    var order :| Enumerates(order, Audience(subscriptions, subgraphs, e))
              && deltas' == AddDeltas(deltas, subscriptions, subgraphs, e, order);
    EnumerationSize(order, {});
  }

  lemma {:induction false} EnumerationSize(order: seq<nat>, ids: set<nat>)
    requires Enumerates(order, ids)
    ensures |order| == |ids|
    decreases |order|
  {
    if order == [] {
      assert ids == {};
    } else {
      var n := |order| - 1;
      assert order == order[..n] + [order[n]];
      EnumerationSize(order[..n], ids - {order[n]});
    }
  }

  /** The fan-out loop, over the subscriptions in an order of the map's choosing. */
  method FanOut(deltas: map<nat, Delta>, subscriptions: map<nat, Subscription>,
                subgraphs: map<SubgraphId, SubgraphRecord>, e: Event) returns (deltas': map<nat, Delta>)
    ensures FansOut(deltas, deltas', subscriptions, subgraphs, e)
  {
    deltas' := deltas;
    ghost var order: seq<nat> := [];
    var todo := subscriptions.Keys;
    while todo != {}
      invariant todo <= subscriptions.Keys
      invariant Enumerates(order, Audience(subscriptions, subgraphs, e) - todo)
      invariant deltas' == AddDeltas(deltas, subscriptions, subgraphs, e, order)
      decreases |todo|
    {
      var id :| id in todo;
      if Hears(subscriptions[id], subgraphs, e) {
        assert id in Audience(subscriptions, subgraphs, e);
        deltas' := deltas'[|deltas'| + 1 := DeltaFor(subscriptions, subgraphs, e, id)];
        order := order + [id];
        assert order[..|order| - 1] + [id] == order;
      }
      todo := todo - {id};
    }
  }

  predicate IsPending(v: Delivery, d: Graph, pr: Principal, id: nat) {
    && id in v.deltas && id !in v.acked
    && v.deltas[id].project == pr.project && v.deltas[id].invocation == pr.invocation
    && v.deltas[id].subscription in v.subscriptions
    && Of(v.subscriptions[v.deltas[id].subscription], pr.project, pr.invocation)
    && VisibleTouched(v.subscriptions[v.deltas[id].subscription], d.subgraphs, v.deltas[id].subgraphs) != {}
  }

  /** A pending delta as it is read: cut down to the touched subgraphs its subscription still sees. */
  function Shown(v: Delivery, d: Graph, pr: Principal, id: nat): Delta
    requires IsPending(v, d, pr, id)
  {
    var x := v.deltas[id];
    x.(subgraphs := VisibleTouched(v.subscriptions[x.subscription], d.subgraphs, x.subgraphs))
  }

  /** The deltas the invocation still has to read. */
  method PendingDeltas(v: Delivery, d: Graph, pr: Principal) returns (out: map<nat, Delta>)
    ensures forall id :: id in out <==> IsPending(v, d, pr, id)
    ensures forall id | IsPending(v, d, pr, id) :: out[id] == Shown(v, d, pr, id)
  {
    out := map[];
    var todo := v.deltas.Keys;
    while todo != {}
      invariant todo <= v.deltas.Keys
      invariant forall id :: id in out <==> id !in todo && IsPending(v, d, pr, id)
      invariant forall id | id !in todo && IsPending(v, d, pr, id) :: out[id] == Shown(v, d, pr, id)
      decreases |todo|
    {
      var id :| id in todo;
      if IsPending(v, d, pr, id) {
        out := out[id := Shown(v, d, pr, id)];
      }
      todo := todo - {id};
    }
  }

  function Ack(v: Delivery, pr: Principal, id: nat): Outcome<Delivery> {
    if id !in v.deltas || v.deltas[id].project != pr.project || v.deltas[id].invocation != pr.invocation then Refused
    else
      var s := v.deltas[id].subscription;
      if s !in v.subscriptions || v.subscriptions[s].project != pr.project
         || v.subscriptions[s].invocation != v.deltas[id].invocation then Refused
      else Done(v.(acked := v.acked + {id}))
  }

  // ---------------------------------------------------------------------------------------
  // Slices
  // ---------------------------------------------------------------------------------------

  /** The subgraphs an invocation's active subscriptions cover, as far as the principal sees them. */
  function Effective(d: Graph, subscriptions: map<nat, Subscription>, pr: Principal, invocation: InvocationId)
    : set<SubgraphId>
  {
    set g, s | s in subscriptions && Of(subscriptions[s], pr.project, invocation) && g in subscriptions[s].subgraphs
             && g in d.subgraphs && CanSeeSubgraph(pr, d.subgraphs[g]) :: g
  }

  function ActiveIds(subscriptions: map<nat, Subscription>, project: ProjectId, invocation: InvocationId): set<nat> {
    set s | s in subscriptions && Of(subscriptions[s], project, invocation)
  }

  method EffectiveSubgraphs(d: Graph, subscriptions: map<nat, Subscription>, pr: Principal, invocation: InvocationId)
    returns (out: set<SubgraphId>)
    ensures out == Effective(d, subscriptions, pr, invocation)
  {
    out := {};
    var todo := subscriptions.Keys;
    while todo != {}
      invariant todo <= subscriptions.Keys
      invariant forall g :: g in out <==>
        exists s <- subscriptions.Keys - todo :: Of(subscriptions[s], pr.project, invocation)
          && g in subscriptions[s].subgraphs && g in d.subgraphs && CanSeeSubgraph(pr, d.subgraphs[g])
      decreases |todo|
    {
      var s :| s in todo;
      if Of(subscriptions[s], pr.project, invocation) {
        out := out + set g | g in subscriptions[s].subgraphs && g in d.subgraphs && CanSeeSubgraph(pr, d.subgraphs[g]);
      }
      todo := todo - {s};
    }
  }

  /** A node with its memberships cut down to the subgraphs of the slice. */
  function CutDown(n: Node, to: set<SubgraphId>): Node {
    n.(subgraphs := n.subgraphs * to)
  }

  /** Exactly the nodes in the subgraphs, each once in the order of creation, with memberships cut down. */
  ghost predicate SlicesTo(d: Graph, to: set<SubgraphId>, nodes: seq<Node>) {
    && NodesInOrder(d, nodes)
    && (forall n <- nodes :: n.id in d.nodes && n == CutDown(d.nodes[n.id].node, to) && n.subgraphs != {})
    && (forall id | id in d.nodes && d.nodes[id].node.subgraphs * to != {} :: exists n <- nodes :: n.id == id)
  }

  ghost predicate IsSlice(d: Graph, subscriptions: map<nat, Subscription>, pr: Principal, invocation: InvocationId,
                          s: Slice)
  {
    && SlicesTo(d, Effective(d, subscriptions, pr, invocation), s.nodes)
    && s.subscriptions == ActiveIds(subscriptions, pr.project, invocation)
    && s.revision == d.revision
  }

  /** A node in an effective subgraph is one the principal sees: memberships share its project. */
  lemma EffectiveIsVisible(d: Graph, subscriptions: map<nat, Subscription>, pr: Principal, invocation: InvocationId,
                           id: NodeId)
    requires Sound(d) && id in d.nodes
    requires d.nodes[id].node.subgraphs * Effective(d, subscriptions, pr, invocation) != {}
    ensures Visible(d, pr, id)
  {
    var g :| g in d.nodes[id].node.subgraphs * Effective(d, subscriptions, pr, invocation);
    assert NodeOk(d, id);
    assert g in d.nodes[id].node.subgraphs && g in d.subgraphs && CanSeeSubgraph(pr, d.subgraphs[g]);
  }

  predicate NodeAt(nodes: seq<Node>, j: int, id: NodeId) {
    0 <= j < |nodes| && nodes[j].id == id
  }

  ghost predicate CutFrom(d: Graph, to: set<SubgraphId>, x: Node) {
    x.id in d.nodes && x == CutDown(d.nodes[x.id].node, to) && x.subgraphs != {}
  }

  /** The slice of the first n nodes in the order of creation. */
  ghost predicate SlicedSoFar(d: Graph, to: set<SubgraphId>, all: seq<NodeId>, n: nat, nodes: seq<Node>)
    requires n <= |all| && forall id <- all :: id in d.nodes
  {
    && NodesInOrder(d, nodes)
    && (forall j | 0 <= j < |nodes| :: CutFrom(d, to, nodes[j]))
    && (forall j, k | 0 <= j < |nodes| && n <= k < |all| :: d.nodes[nodes[j].id].sequence < d.nodes[all[k]].sequence)
    && (forall k | 0 <= k < n && d.nodes[all[k]].node.subgraphs * to != {} :: exists j :: NodeAt(nodes, j, all[k]))
  }

  lemma SliceOneMore(d: Graph, to: set<SubgraphId>, all: seq<NodeId>, n: nat, nodes: seq<Node>)
    requires Sound(d) && InOrder(d, all) && n < |all| && SlicedSoFar(d, to, all, n, nodes)
    ensures SlicedSoFar(d, to, all, n + 1,
                        if d.nodes[all[n]].node.subgraphs * to != {}
                        then nodes + [CutDown(d.nodes[all[n]].node, to)] else nodes)
  {
    assert NodeOk(d, all[n]);
    if d.nodes[all[n]].node.subgraphs * to != {} {
      var x := CutDown(d.nodes[all[n]].node, to);
      var more := nodes + [x];
      AppendLatest(d, nodes, x);
      assert NodeAt(more, |nodes|, all[n]) && CutFrom(d, to, x);
      forall k | 0 <= k < n && d.nodes[all[k]].node.subgraphs * to != {} ensures exists j :: NodeAt(more, j, all[k]) {
        var j :| NodeAt(nodes, j, all[k]);
        assert NodeAt(more, j, all[k]);
      }
    }
  }

  lemma AppendLatest(d: Graph, nodes: seq<Node>, x: Node)
    requires NodesInOrder(d, nodes) && x.id in d.nodes
    requires forall j | 0 <= j < |nodes| ::
      nodes[j].id in d.nodes && d.nodes[nodes[j].id].sequence < d.nodes[x.id].sequence
    ensures NodesInOrder(d, nodes + [x])
  {
    var more := nodes + [x];
    var ids := seq(|nodes|, i requires 0 <= i < |nodes| => nodes[i].id);
    var ids' := seq(|more|, i requires 0 <= i < |more| => more[i].id);
    assert ids' == ids + [x.id];
  }

  lemma SlicedAll(d: Graph, to: set<SubgraphId>, all: seq<NodeId>, nodes: seq<Node>)
    requires InOrder(d, all) && (forall id :: id in all <==> id in d.nodes) && SlicedSoFar(d, to, all, |all|, nodes)
    ensures SlicesTo(d, to, nodes)
  {
    forall id | id in d.nodes && d.nodes[id].node.subgraphs * to != {} ensures exists n <- nodes :: n.id == id {
      var k :| 0 <= k < |all| && all[k] == id;
      var j :| NodeAt(nodes, j, all[k]);
      assert nodes[j] in nodes;
    }
  }

  /** The slice loop: over the nodes in the order of creation, keeping those that are visible and meet the
      effective subgraphs. */
  method SliceNodes(d: Graph, subscriptions: map<nat, Subscription>, pr: Principal, invocation: InvocationId)
    returns (nodes: seq<Node>)
    requires Sound(d)
    ensures SlicesTo(d, Effective(d, subscriptions, pr, invocation), nodes)
  {
    var to := EffectiveSubgraphs(d, subscriptions, pr, invocation);
    var all := SortedNodes(d);
    nodes := [];
    for i := 0 to |all|
      invariant SlicedSoFar(d, to, all, i, nodes)
    {
      var r := d.nodes[all[i]];
      SliceOneMore(d, to, all, i, nodes);
      if r.node.subgraphs * to != {} { EffectiveIsVisible(d, subscriptions, pr, invocation, all[i]); }
      if CanSeeNode(pr, d.subgraphs, r) && r.node.subgraphs * to != {} {
        nodes := nodes + [CutDown(r.node, to)];
      }
    }
    SlicedAll(d, to, all, nodes);
  }

  method MaterializeSlice(d: Graph, subscriptions: map<nat, Subscription>, pr: Principal, invocation: InvocationId)
    returns (s: Slice)
    requires Sound(d)
    ensures IsSlice(d, subscriptions, pr, invocation, s)
  {
    var nodes := SliceNodes(d, subscriptions, pr, invocation);
    s := Slice(nodes, ActiveIds(subscriptions, pr.project, invocation), d.revision);
  }
}
