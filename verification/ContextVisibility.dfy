/** Who is shown what: a node is seen through its memberships, a general subgraph by everybody of the project and a
    task's subgraph by that task alone. Exploring and slicing show nothing else, and a subscription hears of nothing
    else.
 */
module ContextVisibility {
  import opened ContextGraph
  import opened ContextExplore
  import opened ContextDelivery

  /** The subgraph is shown to a task of a project: it is general, or the task's own. */
  predicate ShownTo(d: Graph, project: ProjectId, task: TaskId, g: SubgraphId) {
    && g in d.subgraphs && d.subgraphs[g].project == project
    && (d.subgraphs[g].kind != General ==> task != "" && d.subgraphs[g].task == task)
  }

  /** A node is seen exactly by its project, and if it has memberships through one that is shown. */
  lemma VisibleIff(d: Graph, pr: Principal, id: NodeId)
    ensures Visible(d, pr, id) <==>
            && id in d.nodes && d.nodes[id].project == pr.project
            && (d.nodes[id].node.subgraphs == {}
                || exists g <- d.nodes[id].node.subgraphs :: ShownTo(d, pr.project, pr.task, g))
  {
    if id in d.nodes {
      forall g | g in d.nodes[id].node.subgraphs
        ensures g in d.subgraphs && CanSeeSubgraph(pr, d.subgraphs[g]) <==> ShownTo(d, pr.project, pr.task, g)
      {
      }
    }
  }

  lemma WalkIsVisible(d: Graph, pr: Principal, a: NodeId, b: NodeId, k: nat)
    requires Visible(d, pr, a) && Within(d, pr, a, b, k)
    ensures Visible(d, pr, b)
  {
    var p :| Walk(d, pr, a, b, p) && |p| <= k + 1;
    if |p| > 1 { assert Joined(d, pr, p[|p| - 2], p[|p| - 2 + 1]); }
  }

  /** No membership of the node is shown to the principal. */
  predicate Hidden(d: Graph, pr: Principal, id: NodeId) {
    && id in d.nodes && d.nodes[id].node.subgraphs != {}
    && forall g <- d.nodes[id].node.subgraphs :: !ShownTo(d, pr.project, pr.task, g)
  }

  /** A node whose memberships all belong to other tasks, or other projects, is in no exploration, at whatever depth
      from whatever anchor, and in no slice, whatever the invocation subscribed to. */
  lemma HiddenIsNeverShown(d: Graph, pr: Principal, id: NodeId)
    requires Hidden(d, pr, id)
    ensures !Visible(d, pr, id)
    ensures forall a, k: nat | Visible(d, pr, a) :: !Within(d, pr, a, id, k)
    ensures forall g :: !Inside(d, pr, g, id)
    ensures forall subscriptions, invocation, s | IsSlice(d, subscriptions, pr, invocation, s) ::
              forall n <- s.nodes :: n.id != id
  {
    VisibleIff(d, pr, id);
    forall a, k: nat | Visible(d, pr, a) ensures !Within(d, pr, a, id, k) {
      if Within(d, pr, a, id, k) { WalkIsVisible(d, pr, a, id, k); }
    }
    forall subscriptions, invocation, s, n | IsSlice(d, subscriptions, pr, invocation, s) && n in s.nodes
      ensures n.id != id
    {
      SlicedIsShown(d, subscriptions, pr, invocation, s, n);
    }
  }

  /** Every node of a slice is in it for a membership that the invocation subscribed to and that is shown to the
      principal, and the slice tells of no other membership. */
  lemma SlicedIsShown(d: Graph, subscriptions: map<nat, Subscription>, pr: Principal, invocation: InvocationId,
                      s: Slice, n: Node)
    requires IsSlice(d, subscriptions, pr, invocation, s) && n in s.nodes
    ensures n.id in d.nodes && n.subgraphs != {} && n.subgraphs <= d.nodes[n.id].node.subgraphs
    ensures n == d.nodes[n.id].node.(subgraphs := n.subgraphs)
    ensures forall g <- n.subgraphs ::
              ShownTo(d, pr.project, pr.task, g) && Subscribed(subscriptions, pr, invocation, g)
  {
    forall g | g in n.subgraphs
      ensures ShownTo(d, pr.project, pr.task, g) && Subscribed(subscriptions, pr, invocation, g)
    {
      assert g in Effective(d, subscriptions, pr, invocation);
    }
  }

  /** The invocation has an active subscription to the subgraph. */
  ghost predicate Subscribed(subscriptions: map<nat, Subscription>, pr: Principal, invocation: InvocationId,
                             g: SubgraphId)
  {
    exists i <- subscriptions ::
      && subscriptions[i].active && subscriptions[i].project == pr.project && subscriptions[i].invocation == invocation
      && g in subscriptions[i].subgraphs
  }

  /** What an exploration shows of a node: all of it but the memberships that are not shown to the principal. */
  lemma ExploredShows(d: Graph, pr: Principal, nodes: seq<Node>, ids: set<NodeId>, n: Node)
    requires Lists(d, pr, nodes, ids) && n in nodes
    ensures n.id in d.nodes && n == d.nodes[n.id].node.(subgraphs := n.subgraphs)
    ensures forall g :: g in n.subgraphs <==> g in d.nodes[n.id].node.subgraphs && ShownTo(d, pr.project, pr.task, g)
  {
  }

  /** A subscription hears of a change exactly when it is active and of the project, its filter lets the kind of change
      through, and the change touched a subgraph it names and that is shown to its task. */
  lemma HearsIff(d: Graph, s: Subscription, e: Event)
    ensures Hears(s, d.subgraphs, e) <==>
            && s.active && s.project == e.project && (s.kinds != {} ==> e.kind in s.kinds)
            && exists g <- s.subgraphs :: g in e.touched && ShownTo(d, s.project, s.task, g)
  {
    forall g | g in s.subgraphs
      ensures g in VisibleTouched(s, d.subgraphs, e.touched) <==> g in e.touched && ShownTo(d, s.project, s.task, g)
    {
    }
    if Hears(s, d.subgraphs, e) {
      var g :| g in VisibleTouched(s, d.subgraphs, e.touched);
      assert g in s.subgraphs;
    }
  }

  /** The news a subscription gets: its own number and invocation, the event, its kind and the graph's revision, and of
      what was touched just the subgraphs it names and is shown. */
  lemma NewsIs(d: Graph, subscriptions: map<nat, Subscription>, e: Event, id: nat)
    requires id in subscriptions
    ensures var s, x := subscriptions[id], DeltaFor(subscriptions, d.subgraphs, e, id);
            && x == Delta(e.project, id, s.invocation, e.id, e.kind, x.subgraphs, e.revision)
            && forall g :: g in x.subgraphs <==> g in e.touched && g in s.subgraphs && ShownTo(d, s.project, s.task, g)
  {
  }

  /** What an invocation has still to read: its own unacknowledged news of active subscriptions of its own, as long as
      something the news is about is still shown to the subscription. */
  lemma PendingIff(v: Delivery, d: Graph, pr: Principal, id: nat)
    ensures IsPending(v, d, pr, id) <==>
            && id in v.deltas && id !in v.acked && v.deltas[id].project == pr.project
            && v.deltas[id].invocation == pr.invocation && v.deltas[id].subscription in v.subscriptions
            && var s := v.subscriptions[v.deltas[id].subscription];
               && s.active && s.project == pr.project && s.invocation == pr.invocation
               && exists g <- s.subgraphs :: g in v.deltas[id].subgraphs && ShownTo(d, s.project, s.task, g)
  {
    if id in v.deltas && v.deltas[id].subscription in v.subscriptions {
      var s := v.subscriptions[v.deltas[id].subscription];
      forall g | g in s.subgraphs
        ensures g in VisibleTouched(s, d.subgraphs, v.deltas[id].subgraphs) <==>
                g in v.deltas[id].subgraphs && ShownTo(d, s.project, s.task, g)
      {
      }
      if VisibleTouched(s, d.subgraphs, v.deltas[id].subgraphs) != {} {
        var g :| g in VisibleTouched(s, d.subgraphs, v.deltas[id].subgraphs);
        assert g in s.subgraphs;
      }
    }
  }

  /** A subscription is taken exactly for an invocation and for subgraphs all of which are shown to the principal; it is
      stored active, for the project, with the task, source and filter asked for. */
  lemma SubscribedIff(v: Delivery, d: Graph, pr: Principal, q: SubscribeRequest)
    ensures Subscribe(v, d, pr, q).Done? <==>
            && q.invocation != "" && |q.subgraphs| > 0
            && forall g <- q.subgraphs :: g != NamedSubgraph("") ==> ShownTo(d, pr.project, pr.task, g)
    ensures Subscribe(v, d, pr, q).Done? ==>
              var v', n := Subscribe(v, d, pr, q).value, |v.subscriptions| + 1;
              && v' == v.(subscriptions := v'.subscriptions) && n in v'.subscriptions
              && v'.subscriptions == v.subscriptions[n := v'.subscriptions[n]]
              && var s := v'.subscriptions[n];
                 && s == Subscription(pr.project, q.task, q.invocation, q.source, s.subgraphs, s.kinds, true)
                 && (forall g :: g in s.subgraphs <==> g in q.subgraphs && g != NamedSubgraph(""))
                 && (forall k :: k in s.kinds <==> k in q.kinds && k != "")
  {
  }

  /** Only the invocation that has a subscription can end it. */
  lemma UnsubscribedIff(v: Delivery, pr: Principal, id: nat)
    ensures Unsubscribe(v, pr, id).Done? <==>
            && id in v.subscriptions && v.subscriptions[id].project == pr.project
            && v.subscriptions[id].invocation == pr.invocation
    ensures Unsubscribe(v, pr, id).Done? ==>
              Unsubscribe(v, pr, id).value ==
              v.(subscriptions := v.subscriptions[id := v.subscriptions[id].(active := false)])
  {
  }

  /** Only the invocation that news is for can acknowledge it, and then through the subscription it came by. */
  lemma AckedIff(v: Delivery, pr: Principal, id: nat)
    ensures Ack(v, pr, id).Done? <==>
            && id in v.deltas && v.deltas[id].project == pr.project && v.deltas[id].invocation == pr.invocation
            && v.deltas[id].subscription in v.subscriptions
            && v.subscriptions[v.deltas[id].subscription].project == pr.project
            && v.subscriptions[v.deltas[id].subscription].invocation == pr.invocation
    ensures Ack(v, pr, id).Done? ==> Ack(v, pr, id).value == v.(acked := v.acked + {id})
  {
  }
}
