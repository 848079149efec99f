/** Runs of the delivery side: deltas, acknowledgements and first slices are never taken back, whatever else
    happens to the graph and the subscriptions.
 */
module ContextDeliveryRuns {
  import opened ContextGraph
  import opened ContextExplore
  import opened ContextDelivery

  // ---------------------------------------------------------------------------------------
  // A slice is determined by the graph and the subgraphs it covers
  // ---------------------------------------------------------------------------------------

  /** The last of an ordered list is the latest, and comes once. */
  lemma LastIsLatest(d: Graph, a: seq<NodeId>, id: NodeId)
    requires InOrder(d, a) && a != []
    ensures a[|a| - 1] in a && a[|a| - 1] in d.nodes
    ensures id in a[..|a| - 1] <==> id in a && id != a[|a| - 1]
    ensures id in a && id != a[|a| - 1] ==> d.nodes[id].sequence < d.nodes[a[|a| - 1]].sequence
  {
    var n := |a| - 1;
    if id in a[..n] {
      var i :| 0 <= i < n && a[i] == id;
      assert d.nodes[a[i]].sequence < d.nodes[a[n]].sequence;
    }
  }

  ghost predicate SameElements(a: seq<NodeId>, b: seq<NodeId>) {
    forall id :: id in a <==> id in b
  }

  lemma SameLast(d: Graph, a: seq<NodeId>, b: seq<NodeId>)
    requires InOrder(d, a) && InOrder(d, b) && SameElements(a, b) && a != []
    ensures b != [] && a[|a| - 1] == b[|b| - 1] && SameElements(a[..|a| - 1], b[..|b| - 1])
  {
    assert a[|a| - 1] in b;
    LastIsLatest(d, a, b[|b| - 1]);
    LastIsLatest(d, b, a[|a| - 1]);
    var x, y := a[..|a| - 1], b[..|b| - 1];
    forall id ensures id in x <==> id in y {
      LastIsLatest(d, a, id);
      LastIsLatest(d, b, id);
    }
  }

  lemma {:induction false} OrderDetermines(d: Graph, a: seq<NodeId>, b: seq<NodeId>)
    requires InOrder(d, a) && InOrder(d, b) && SameElements(a, b)
    ensures a == b
    decreases |a|
  {
    if b != [] { assert b[0] in a; }
    if a != [] {
      SameLast(d, a, b);
      OrderDetermines(d, a[..|a| - 1], b[..|b| - 1]);
      assert a == a[..|a| - 1] + [a[|a| - 1]] && b == b[..|b| - 1] + [b[|b| - 1]];
    }
  }

  lemma SliceIsDetermined(d: Graph, to: set<SubgraphId>, a: seq<Node>, b: seq<Node>)
    requires SlicesTo(d, to, a) && SlicesTo(d, to, b)
    ensures a == b
  {
    var x := seq(|a|, i requires 0 <= i < |a| => a[i].id);
    var y := seq(|b|, i requires 0 <= i < |b| => b[i].id);
    SliceIdsWithin(d, to, a, b, x, y);
    SliceIdsWithin(d, to, b, a, y, x);
    OrderDetermines(d, x, y);
    forall i | 0 <= i < |a| ensures a[i] == b[i] {
      assert a[i] in a && b[i] in b && x[i] == y[i];
    }
  }

  lemma SliceIdsWithin(d: Graph, to: set<SubgraphId>, a: seq<Node>, b: seq<Node>, x: seq<NodeId>, y: seq<NodeId>)
    requires SlicesTo(d, to, a) && SlicesTo(d, to, b)
    requires |x| == |a| && (forall i | 0 <= i < |a| :: x[i] == a[i].id)
    requires |y| == |b| && (forall i | 0 <= i < |b| :: y[i] == b[i].id)
    ensures forall id :: id in x ==> id in y
  {
    forall id | id in x ensures id in y {
      var i :| 0 <= i < |x| && x[i] == id;
      assert a[i] in a;
      var n :| n in b && n.id == id;
      var k :| 0 <= k < |b| && b[k] == n;
      assert y[k] == id;
    }
  }

  // ---------------------------------------------------------------------------------------
  // Steps
  // ---------------------------------------------------------------------------------------

  datatype World = World(graph: Graph, delivery: Delivery)

  /** Graph mutations appear as the graph they leave and the event they fan out; an event without a mutation
      leaves the same graph. */
  datatype Step =
    | SubscribeStep(pr: Principal, request: SubscribeRequest)
    | UnsubscribeStep(pr: Principal, subscription: nat)
    | EndStep(pr: Principal)
    | AckStep(pr: Principal, delta: nat)
    | EventStep(graph: Graph, event: Event, deltas: map<nat, Delta>)
    | SliceStep(pr: Principal, subgraphs: seq<SubgraphId>, nodes: seq<Node>)

  function KeyOf(pr: Principal): InvocationKey {
    InvocationKey(pr.project, pr.invocation)
  }

  function InitialRequest(pr: Principal, subgraphs: seq<SubgraphId>): SubscribeRequest {
    SubscribeRequest(pr.invocation, pr.task, Initial, subgraphs, [])
  }

  /** Stores an invocation's first slice; a later call returns the stored one and changes nothing. */
  function EnsureInitialSlice(v: Delivery, d: Graph, pr: Principal, subgraphs: seq<SubgraphId>, nodes: seq<Node>)
    : (Outcome<Slice>, Delivery)
  {
    if KeyOf(pr) in v.slices then (Done(v.slices[KeyOf(pr)]), v)
    else
      var r := Subscribe(v, d, pr, InitialRequest(pr, subgraphs));
      if r.Refused? then (Refused, v)
      else
        var s := Slice(nodes, {|v.subscriptions| + 1}, d.revision);
        (Done(s), r.value.(slices := v.slices[KeyOf(pr) := s]))
  }

  ghost predicate Allowed(w: World, s: Step) {
    match s
    case SubscribeStep(_, q) => q.source != Initial
    case EventStep(d, e, deltas) => FansOut(w.delivery.deltas, deltas, w.delivery.subscriptions, d.subgraphs, e)
    case SliceStep(pr, subgraphs, nodes) =>
      var r := Subscribe(w.delivery, w.graph, pr, InitialRequest(pr, subgraphs));
      KeyOf(pr) !in w.delivery.slices && r.Done? ==>
        SlicesTo(w.graph, Effective(w.graph, r.value.subscriptions, pr, pr.invocation), nodes)
    case _ => true
  }

  function Kept(v: Delivery, r: Outcome<Delivery>): Delivery {
    if r.Done? then r.value else v
  }

  ghost function Apply(w: World, s: Step): World
    requires Allowed(w, s)
  {
    var v := w.delivery;
    match s
    case SubscribeStep(pr, q) => w.(delivery := Kept(v, Subscribe(v, w.graph, pr, q)))
    case UnsubscribeStep(pr, id) => w.(delivery := Kept(v, Unsubscribe(v, pr, id)))
    case EndStep(pr) => w.(delivery := EndInvocation(v, pr))
    case AckStep(pr, id) => w.(delivery := Kept(v, Ack(v, pr, id)))
    case EventStep(d, _, deltas) => World(d, v.(deltas := deltas))
    case SliceStep(pr, subgraphs, nodes) => w.(delivery := EnsureInitialSlice(v, w.graph, pr, subgraphs, nodes).1)
  }

  ghost predicate IsRunOf(w: World, steps: seq<Step>)
    decreases |steps|
  {
    steps == [] || (Allowed(w, steps[0]) && IsRunOf(Apply(w, steps[0]), steps[1..]))
  }

  ghost function After(w: World, steps: seq<Step>): World
    requires IsRunOf(w, steps)
    decreases |steps|
  {
    if steps == [] then w else After(Apply(w, steps[0]), steps[1..])
  }

  // ---------------------------------------------------------------------------------------
  // What every run keeps
  // ---------------------------------------------------------------------------------------

  /** Ids are counted, and an initial subscription exists only together with the slice it was made for. */
  ghost predicate Inv(v: Delivery) {
    && Counted(v.subscriptions) && Counted(v.deltas)
    && forall s <- v.subscriptions :: v.subscriptions[s].source == Initial ==>
         InvocationKey(v.subscriptions[s].project, v.subscriptions[s].invocation) in v.slices
  }

  /** Nothing is taken back from v to v': subscriptions keep what they are and never revive, deltas,
      acknowledgements and slices stay, and a subscription that had ended gets no new delta. */
  ghost predicate Carries(v: Delivery, v': Delivery) {
    && (forall s <- v.subscriptions ::
          s in v'.subscriptions && v'.subscriptions[s].(active := true) == v.subscriptions[s].(active := true))
    && (forall s <- v.subscriptions :: !v.subscriptions[s].active ==> !v'.subscriptions[s].active)
    && (forall k <- v.deltas :: k in v'.deltas && v'.deltas[k] == v.deltas[k])
    && v.acked <= v'.acked
    && (forall k <- v.slices :: k in v'.slices && v'.slices[k] == v.slices[k])
    && (forall k <- v'.deltas :: k !in v.deltas && v'.deltas[k].subscription in v.subscriptions
                                 ==> v.subscriptions[v'.deltas[k].subscription].active)
  }

  lemma CarriesOn(u: Delivery, v: Delivery, w: Delivery)
    requires Carries(u, v) && Carries(v, w)
    ensures Carries(u, w)
  {
    forall k | k in w.deltas && k !in u.deltas && w.deltas[k].subscription in u.subscriptions
      ensures u.subscriptions[w.deltas[k].subscription].active
    {
      if k in v.deltas { assert w.deltas[k] == v.deltas[k]; }
    }
  }

  lemma EventStepKeeps(w: World, s: Step)
    requires Inv(w.delivery) && Allowed(w, s) && s.EventStep?
    ensures Inv(Apply(w, s).delivery) && Carries(w.delivery, Apply(w, s).delivery)
  {
    var v := w.delivery;
    FanOutKeeps(v.deltas, s.deltas, v.subscriptions, s.graph.subgraphs, s.event);
    forall k | k in s.deltas && k !in v.deltas
      ensures Hears(v.subscriptions[s.deltas[k].subscription], s.graph.subgraphs, s.event)
    {
      EachSubscriberHearsOnce(v.deltas, s.deltas, v.subscriptions, s.graph.subgraphs, s.event,
                              s.deltas[k].subscription);
    }
  }

  /** A subscription more, with the slice it was made for if it is an initial one. */
  lemma SubscribingKeeps(v: Delivery, v': Delivery, x: Subscription)
    requires Inv(v) && v' == v.(subscriptions := v.subscriptions[|v.subscriptions| + 1 := x], slices := v'.slices)
    requires forall k <- v.slices :: k in v'.slices && v'.slices[k] == v.slices[k]
    requires x.source == Initial ==> InvocationKey(x.project, x.invocation) in v'.slices
    ensures Inv(v') && Carries(v, v')
  {
    CountOneMore(v.subscriptions, x);
  }

  lemma EndStepKeeps(v: Delivery, pr: Principal)
    requires Inv(v)
    ensures Inv(EndInvocation(v, pr)) && Carries(v, EndInvocation(v, pr))
  {
    assert EndInvocation(v, pr).subscriptions.Keys == v.subscriptions.Keys;
    assert |EndInvocation(v, pr).subscriptions| == |v.subscriptions|;
  }

  /** More deltas, counted on. */
  lemma TellingKeeps(v: Delivery, deltas: map<nat, Delta>)
    requires Inv(v) && Counted(deltas)
    ensures Inv(v.(deltas := deltas))
  {
  }

  lemma UnsubscribeKeeps(v: Delivery, pr: Principal, id: nat)
    requires Inv(v) && Unsubscribe(v, pr, id).Done?
    ensures Inv(Unsubscribe(v, pr, id).value) && Carries(v, Unsubscribe(v, pr, id).value)
  {
    assert Unsubscribe(v, pr, id).value.subscriptions.Keys == v.subscriptions.Keys;
  }

  lemma StepKeeps(w: World, s: Step)
    requires Inv(w.delivery) && Allowed(w, s)
    ensures Inv(Apply(w, s).delivery) && Carries(w.delivery, Apply(w, s).delivery)
  {
    var v := w.delivery;
    match s
    case SubscribeStep(pr, q) =>
      if Subscribable(w.graph, pr, q) { SubscribingKeeps(v, Apply(w, s).delivery, NewSubscription(pr, q)); }
    case SliceStep(pr, subgraphs, nodes) =>
      var q := InitialRequest(pr, subgraphs);
      if KeyOf(pr) !in v.slices && Subscribable(w.graph, pr, q) {
        SubscribingKeeps(v, Apply(w, s).delivery, NewSubscription(pr, q));
      }
    case EventStep(_, _, _) => EventStepKeeps(w, s);
    case EndStep(pr) => EndStepKeeps(v, pr);
    case UnsubscribeStep(pr, id) =>
      if Unsubscribe(v, pr, id).Done? { UnsubscribeKeeps(v, pr, id); }
    case AckStep(_, _) =>
  }

  lemma {:induction false} RunKeeps(w: World, steps: seq<Step>)
    requires Inv(w.delivery) && IsRunOf(w, steps)
    ensures Inv(After(w, steps).delivery) && Carries(w.delivery, After(w, steps).delivery)
    decreases |steps|
  {
    if steps != [] {
      StepKeeps(w, steps[0]);
      RunKeeps(Apply(w, steps[0]), steps[1..]);
      CarriesOn(w.delivery, Apply(w, steps[0]).delivery, After(w, steps).delivery);
    }
  }

  // ---------------------------------------------------------------------------------------
  // Main results
  // ---------------------------------------------------------------------------------------

  /** An acknowledged delta is never pending again, and its content never changes. */
  lemma AckedNeverPendingAgain(w: World, steps: seq<Step>, id: nat, pr: Principal)
    requires Inv(w.delivery) && IsRunOf(w, steps) && id in w.delivery.acked
    ensures !IsPending(After(w, steps).delivery, After(w, steps).graph, pr, id)
    ensures id in w.delivery.deltas ==>
      id in After(w, steps).delivery.deltas && After(w, steps).delivery.deltas[id] == w.delivery.deltas[id]
  {
    RunKeeps(w, steps);
  }

  /** A subscription that was cancelled or expired stays so, and hears of nothing more. */
  lemma EndedSubscriptionHearsNothing(w: World, steps: seq<Step>, s: nat)
    requires Inv(w.delivery) && IsRunOf(w, steps)
    requires s in w.delivery.subscriptions && !w.delivery.subscriptions[s].active
    ensures var v' := After(w, steps).delivery;
            && s in v'.subscriptions && !v'.subscriptions[s].active
            && forall k <- v'.deltas :: v'.deltas[k].subscription == s ==> k in w.delivery.deltas
  {
    RunKeeps(w, steps);
  }

  /** The first initial slice stored for an invocation is what every later call returns, whatever happens in
      between; the call changes nothing. */
  lemma FirstSliceStays(w: World, steps: seq<Step>, pr: Principal, subgraphs: seq<SubgraphId>, nodes: seq<Node>)
    requires Inv(w.delivery) && IsRunOf(w, steps) && KeyOf(pr) in w.delivery.slices
    ensures var w' := After(w, steps);
            EnsureInitialSlice(w'.delivery, w'.graph, pr, subgraphs, nodes)
            == (Done(w.delivery.slices[KeyOf(pr)]), w'.delivery)
  {
    RunKeeps(w, steps);
  }

  /** In every reachable state the next subscription id is free, so the search for one stops at once. */
  lemma NextSubscriptionIdIsFree(d: Graph, steps: seq<Step>)
    requires IsRunOf(World(d, NOTHING), steps)
    ensures var subs := After(World(d, NOTHING), steps).delivery.subscriptions; |subs| + 1 !in subs && Counted(subs)
  {
    RunKeeps(World(d, NOTHING), steps);
  }
}
