/** What an accepted review writes: for each decision that is no rejection, the node under its receipt id, in the
    decision's own words where it has any and in the candidate's otherwise; and what becomes of the nodes the decisions
    are about. Stated of the decisions as they were submitted.
 */
module ContextReviewEffects {
  import opened ContextGraph
  import opened ContextReview

  /** How many of the decisions create a node. */
  function CreatedBefore(xs: seq<Decision>): nat {
    if xs == [] then 0 else CreatedBefore(xs[..|xs| - 1]) + (if xs[|xs| - 1].action == Reject then 0 else 1)
  }

  /** The id generated for decision i. */
  function ReviewId(d: Graph, xs: seq<Decision>, i: nat): NodeId
    requires i < |xs|
  {
    ReviewSeq(d.nextSeq + CreatedBefore(xs[..i]) + 1)
  }

  /** A decision that marks the node. */
  predicate Marks(x: Decision, id: NodeId) {
    x.action != Reject && x.target == id && id != Named("")
  }

  /** The same node but for its status and how often it was changed. */
  predicate SameBut(a: NodeRecord, b: NodeRecord) {
    b == a.(node := a.node.(status := b.node.status), revision := b.revision)
  }

  /** The graph after the first n decisions. */
  ghost function Prefix(d: Graph, pr: Principal, ys: seq<Decision>, ss: seq<seq<string>>, n: nat): Graph
    requires n <= |ys| == |ss|
  {
    ApplyDecisions(d, pr, ys[..n], ss[..n])
  }

  lemma {:induction false} CreatedCount(nextSeq: nat, xs: seq<Decision>)
    ensures |Created(nextSeq, xs)| == CreatedBefore(xs)
  {
    if xs != [] { CreatedCount(nextSeq, xs[..|xs| - 1]); }
  }

  lemma NextPrefix(d: Graph, pr: Principal, ys: seq<Decision>, ss: seq<seq<string>>, n: nat)
    requires n < |ys| == |ss|
    ensures Prefix(d, pr, ys, ss, n + 1) == ApplyDecision(Prefix(d, pr, ys, ss, n), pr, ys[n], ss[n])
    ensures Prefix(d, pr, ys, ss, n).nextSeq == d.nextSeq + CreatedBefore(ys[..n])
  {
    PrefixOneMore(d, pr, ys, ss, n);
    CreatedCount(d.nextSeq, ys[..n]);
  }

  lemma {:induction false} CountGrows(ys: seq<Decision>, n: nat, m: nat)
    requires n <= m <= |ys|
    ensures CreatedBefore(ys[..n]) <= CreatedBefore(ys[..m])
    decreases m
  {
    if n < m {
      CountGrows(ys, n, m - 1);
      assert ys[..m][..m - 1] == ys[..m - 1];
    }
  }

  /** The id is none of those generated for decisions n to m. */
  predicate NotGenerated(d: Graph, ys: seq<Decision>, n: nat, m: nat, id: NodeId)
    requires n <= m <= |ys|
  {
    id.ReviewSeq? ==>
      id.n <= d.nextSeq + CreatedBefore(ys[..n]) || id.n > d.nextSeq + CreatedBefore(ys[..m])
  }

  lemma StepLeaves(w: Graph, pr: Principal, y: Decision, sources: seq<string>, id: NodeId)
    requires id in w.nodes && (y.action == Reject || id != ReviewSeq(w.nextSeq + 1))
    ensures var w' := ApplyDecision(w, pr, y, sources);
            && id in w'.nodes && SameBut(w.nodes[id], w'.nodes[id])
            && (!Marks(y, id) ==> w'.nodes[id] == w.nodes[id])
  {
  }

  /** One decision on a node it does not create. */
  ghost predicate Left(a: Graph, b: Graph, id: NodeId, marked: bool) {
    id in a.nodes && id in b.nodes && SameBut(a.nodes[id], b.nodes[id]) && (!marked ==> b.nodes[id] == a.nodes[id])
  }

  lemma NextLeaves(d: Graph, pr: Principal, ys: seq<Decision>, ss: seq<seq<string>>, n: nat, id: NodeId)
    requires n < |ys| == |ss| && id in Prefix(d, pr, ys, ss, n).nodes && NotGenerated(d, ys, n, n + 1, id)
    ensures Left(Prefix(d, pr, ys, ss, n), Prefix(d, pr, ys, ss, n + 1), id, Marks(ys[n], id))
  {
    assert ys[..n + 1][..n] == ys[..n];
    NextPrefix(d, pr, ys, ss, n);
    StepLeaves(Prefix(d, pr, ys, ss, n), pr, ys[n], ss[n], id);
  }

  lemma LeftTwice(a: Graph, b: Graph, c: Graph, id: NodeId, m: bool, n: bool)
    requires Left(a, b, id, m) && Left(b, c, id, n)
    ensures Left(a, c, id, m || n)
  {
  }

  ghost predicate MarkedBetween(ys: seq<Decision>, n: nat, m: nat, id: NodeId)
    requires m <= |ys|
  {
    exists k | n <= k < m :: Marks(ys[k], id)
  }

  lemma MarkedMore(ys: seq<Decision>, n: nat, m: nat, id: NodeId)
    requires n <= m < |ys|
    ensures MarkedBetween(ys, n, m + 1, id) <==> MarkedBetween(ys, n, m, id) || Marks(ys[m], id)
  {
  }

  /** Between two decisions a node the decisions do not create keeps all but its status and revision, and keeps these
      too if no decision marks it. */
  lemma {:induction false} BetweenLeaves(d: Graph, pr: Principal, ys: seq<Decision>, ss: seq<seq<string>>, n: nat,
                                         m: nat, id: NodeId)
    requires n <= m <= |ys| == |ss| && id in Prefix(d, pr, ys, ss, n).nodes && NotGenerated(d, ys, n, m, id)
    ensures Left(Prefix(d, pr, ys, ss, n), Prefix(d, pr, ys, ss, m), id, MarkedBetween(ys, n, m, id))
    decreases m
  {
    if n < m {
      CountGrows(ys, n, m - 1);
      CountGrows(ys, m - 1, m);
      BetweenLeaves(d, pr, ys, ss, n, m - 1, id);
      NextLeaves(d, pr, ys, ss, m - 1, id);
      MarkedMore(ys, n, m - 1, id);
      LeftTwice(Prefix(d, pr, ys, ss, n), Prefix(d, pr, ys, ss, m - 1), Prefix(d, pr, ys, ss, m), id,
                MarkedBetween(ys, n, m - 1, id), Marks(ys[m - 1], id));
    }
  }

  lemma StepWrites(w: Graph, pr: Principal, y: Decision, sources: seq<string>)
    requires y.action != Reject
    ensures var w', id := ApplyDecision(w, pr, y, sources), ReviewSeq(w.nextSeq + 1);
            && id in w'.nodes
            && SameBut(NodeRecord(ReviewedNode(w, pr, y, sources), 1, pr.project, w.nextSeq + 1), w'.nodes[id])
            && (y.target != id ==>
                  w'.nodes[id] == NodeRecord(ReviewedNode(w, pr, y, sources), 1, pr.project, w.nextSeq + 1))
  {
  }

  lemma StepMarks(w: Graph, pr: Principal, y: Decision, sources: seq<string>, id: NodeId)
    requires Marks(y, id) && id in w.nodes && w.nodes[id].project == pr.project && id != ReviewSeq(w.nextSeq + 1)
    ensures id in ApplyDecision(w, pr, y, sources).nodes
    ensures ApplyDecision(w, pr, y, sources).nodes[id].node.status == TargetStatus(y.action)
    ensures ApplyDecision(w, pr, y, sources).nodes[id].revision == w.nodes[id].revision + 1
  {
  }

  lemma LastMarkStays(d: Graph, pr: Principal, ys: seq<Decision>, ss: seq<seq<string>>, j: nat, id: NodeId)
    requires j < |ys| == |ss| && id in d.nodes && d.nodes[id].project == pr.project
    requires NotGenerated(d, ys, 0, |ys|, id) && Marks(ys[j], id) && !MarkedBetween(ys, j + 1, |ys|, id)
    ensures Left(d, Prefix(d, pr, ys, ss, |ys|), id, true)
    ensures Prefix(d, pr, ys, ss, |ys|).nodes[id].node.status == TargetStatus(ys[j].action)
  {
    CountGrows(ys, 0, j);
    CountGrows(ys, j, j + 1);
    CountGrows(ys, j + 1, |ys|);
    assert Prefix(d, pr, ys, ss, 0) == d;
    BetweenLeaves(d, pr, ys, ss, 0, j, id);
    MarkTaken(d, pr, ys, ss, j, id);
    BetweenLeaves(d, pr, ys, ss, j + 1, |ys|, id);
    BetweenLeaves(d, pr, ys, ss, 0, |ys|, id);
  }

  lemma MarkTaken(d: Graph, pr: Principal, ys: seq<Decision>, ss: seq<seq<string>>, j: nat, id: NodeId)
    requires j < |ys| == |ss| && Marks(ys[j], id) && NotGenerated(d, ys, j, j + 1, id)
    requires id in Prefix(d, pr, ys, ss, j).nodes && Prefix(d, pr, ys, ss, j).nodes[id].project == pr.project
    ensures id in Prefix(d, pr, ys, ss, j + 1).nodes
    ensures Prefix(d, pr, ys, ss, j + 1).nodes[id].node.status == TargetStatus(ys[j].action)
  {
    assert ys[..j + 1][..j] == ys[..j];
    NextPrefix(d, pr, ys, ss, j);
    StepMarks(Prefix(d, pr, ys, ss, j), pr, ys[j], ss[j], id);
  }

  /** The node of decision i, at the end. */
  lemma WrittenStays(d: Graph, pr: Principal, ys: seq<Decision>, ss: seq<seq<string>>, i: nat)
    requires i < |ys| == |ss| && ys[i].action != Reject
    ensures var w, id := Prefix(d, pr, ys, ss, i), ReviewId(d, ys, i);
            var n, b := ReviewedNode(w, pr, ys[i], ss[i]), Prefix(d, pr, ys, ss, |ys|);
            && n.id == id && id in b.nodes
            && SameBut(NodeRecord(n, 1, pr.project, w.nextSeq + 1), b.nodes[id])
            && (!MarkedBetween(ys, i, |ys|, id) ==> b.nodes[id] == NodeRecord(n, 1, pr.project, w.nextSeq + 1))
  {
    var id := ReviewId(d, ys, i);
    NextPrefix(d, pr, ys, ss, i);
    StepWrites(Prefix(d, pr, ys, ss, i), pr, ys[i], ss[i]);
    assert ys[..i + 1][..i] == ys[..i];
    assert Marks(ys[i], id) ==> MarkedBetween(ys, i, |ys|, id);
    assert MarkedBetween(ys, i + 1, |ys|, id) ==> MarkedBetween(ys, i, |ys|, id);
    BetweenLeaves(d, pr, ys, ss, i + 1, |ys|, id);
  }

  // ---------------------------------------------------------------------------------------
  // In terms of the submission
  // ---------------------------------------------------------------------------------------

  lemma {:induction false} SameCounts(batch: seq<Candidate>, xs: seq<Decision>, n: nat)
    requires (forall x <- xs :: x.candidate in IdsOf(batch)) && n <= |xs|
    ensures CreatedBefore(NormalizedAll(batch, xs)[..n]) == CreatedBefore(xs[..n])
  {
    var ys := NormalizedAll(batch, xs);
    if n > 0 {
      SameCounts(batch, xs, n - 1);
      assert ys[..n][..n - 1] == ys[..n - 1] && xs[..n][..n - 1] == xs[..n - 1];
    }
  }

  /** What the node written for a decision says, whatever later decisions mark it: statement, kind and subgraphs are the
      decision's own where it gives them and the candidate's where it does not; its sources are the candidate's and the
      candidate itself; it belongs to the reviewer. */
  ghost predicate SaysDecided(n: NodeRecord, pr: Principal, c: Candidate, x: Decision) {
    && n.node.statement == (if x.statement != "" then x.statement else c.statement)
    && n.node.kind == (if x.kind != "" then x.kind else c.kind)
    && (forall g :: g in n.node.subgraphs <==>
          g != NamedSubgraph("") && g in (if |x.subgraphs| > 0 then x.subgraphs else c.subgraphs))
    && (forall s :: s in n.node.sources <==> s == "candidate:" + x.candidate || (s != "" && s in c.sources))
    && n.node.creator == pr.actor && n.project == pr.project
  }

  /** The node under the id of a decision says what was decided, about the candidate it names. As long as neither that
      decision nor a later one marks it, it is disputed exactly when the decision is a dispute and accepted otherwise,
      at its first revision. */
  lemma ReviewWrites(d: Graph, pr: Principal, batch: seq<Candidate>, xs: seq<Decision>, i: nat)
    requires (forall x <- xs :: x.candidate in IdsOf(batch)) && i < |xs| && xs[i].action != Reject
    ensures var d', receipt := Settle(d, pr, batch, xs).0, Settle(d, pr, batch, xs).1;
            var id := ReviewId(d, xs, i);
            && CreatedBefore(xs[..i]) < |receipt.nodes| && receipt.nodes[CreatedBefore(xs[..i])] == id
            && id in d'.nodes && d'.nodes[id].node.id == id
            && SaysDecided(d'.nodes[id], pr, RecordOf(batch, xs[i].candidate), xs[i])
            && ((forall k | i <= k < |xs| :: !Marks(xs[k], id)) ==>
                  && d'.nodes[id].node.status == (if xs[i].action == Dispute then "disputed" else "accepted")
                  && d'.nodes[id].revision == 1)
  {
    var id, c := ReviewId(d, xs, i), RecordOf(batch, xs[i].candidate);
    WrittenFor(d, pr, batch, xs, i);
    assert SaysDecided(Settle(d, pr, batch, xs).0.nodes[id], pr, c, xs[i]) by {
      WrittenSays(Settled(d, pr, batch, xs, i), pr, c, xs[i], Settle(d, pr, batch, xs).0.nodes[id]);
    }
    assert CreatedBefore(xs[..i]) == CreatedBefore(NormalizedAll(batch, xs)[..i]) by { SameCounts(batch, xs, i); }
    ReceiptNames(d.nextSeq, NormalizedAll(batch, xs), i);
  }

  /** The graph when decision i is taken up. */
  ghost function Settled(d: Graph, pr: Principal, batch: seq<Candidate>, xs: seq<Decision>, i: nat): Graph
    requires (forall x <- xs :: x.candidate in IdsOf(batch)) && i <= |xs|
  {
    Prefix(d, pr, NormalizedAll(batch, xs), SourcesOf(batch, xs), i)
  }

  lemma WrittenFor(d: Graph, pr: Principal, batch: seq<Candidate>, xs: seq<Decision>, i: nat)
    requires (forall x <- xs :: x.candidate in IdsOf(batch)) && i < |xs| && xs[i].action != Reject
    ensures var nodes, id, w := Settle(d, pr, batch, xs).0.nodes, ReviewId(d, xs, i), Settled(d, pr, batch, xs, i);
            var c := RecordOf(batch, xs[i].candidate);
            var r := NodeRecord(ReviewedNode(w, pr, Normalized(c, xs[i]), c.sources), 1, pr.project, w.nextSeq + 1);
            && r.node.id == id && id in nodes && SameBut(r, nodes[id])
            && ((forall k | i <= k < |xs| :: !Marks(xs[k], id)) ==> nodes[id] == r)
  {
    var ys, ss, id := NormalizedAll(batch, xs), SourcesOf(batch, xs), ReviewId(d, xs, i);
    SameCounts(batch, xs, i);
    WholePrefix(d, pr, batch, xs);
    WrittenStays(d, pr, ys, ss, i);
    assert MarkedBetween(ys, i, |ys|, id) ==> exists k | i <= k < |xs| :: Marks(xs[k], id);
  }

  lemma ReceiptNames(nextSeq: nat, ys: seq<Decision>, i: nat)
    requires i < |ys| && ys[i].action != Reject
    ensures CreatedBefore(ys[..i]) < |Created(nextSeq, ys)|
    ensures Created(nextSeq, ys)[CreatedBefore(ys[..i])] == ReviewSeq(nextSeq + CreatedBefore(ys[..i]) + 1)
  {
    CreatedAt(nextSeq, ys);
    CreatedCount(nextSeq, ys);
    CountGrows(ys, i + 1, |ys|);
    assert ys[..i + 1][..i] == ys[..i] && ys[..|ys|] == ys;
  }

  /** The whole review, decision by decision. */
  lemma WholePrefix(d: Graph, pr: Principal, batch: seq<Candidate>, xs: seq<Decision>)
    requires forall x <- xs :: x.candidate in IdsOf(batch)
    ensures Settle(d, pr, batch, xs).0.nodes ==
            Prefix(d, pr, NormalizedAll(batch, xs), SourcesOf(batch, xs), |xs|).nodes
  {
    var ys, ss := NormalizedAll(batch, xs), SourcesOf(batch, xs);
    assert ys[..|xs|] == ys && ss[..|xs|] == ss;
  }

  lemma WrittenSays(w: Graph, pr: Principal, c: Candidate, x: Decision, n: NodeRecord)
    requires SameBut(NodeRecord(ReviewedNode(w, pr, Normalized(c, x), c.sources), 1, pr.project, w.nextSeq + 1), n)
    ensures SaysDecided(n, pr, c, x)
  {
    assert "candidate:" + x.candidate != "";
  }

  /** Which ids the decisions of a review generate. */
  predicate IsGenerated(d: Graph, xs: seq<Decision>, id: NodeId) {
    id.ReviewSeq? && d.nextSeq < id.n <= d.nextSeq + CreatedBefore(xs)
  }

  /** A node of the project that a decision marks last ends superseded, disputed or outdated by that decision's action,
      and otherwise as it was but for its revision. */
  lemma ReviewMarks(d: Graph, pr: Principal, batch: seq<Candidate>, xs: seq<Decision>, j: nat, id: NodeId)
    requires (forall x <- xs :: x.candidate in IdsOf(batch)) && j < |xs|
    requires id in d.nodes && d.nodes[id].project == pr.project && !IsGenerated(d, xs, id)
    requires Marks(xs[j], id) && forall k | j < k < |xs| :: !Marks(xs[k], id)
    ensures var d' := Settle(d, pr, batch, xs).0;
            && id in d'.nodes && SameBut(d.nodes[id], d'.nodes[id])
            && d'.nodes[id].node.status ==
               (match xs[j].action
                case Supersede => "superseded"
                case Dispute => "disputed"
                case _ => "outdated")
  {
    var ys, ss := NormalizedAll(batch, xs), SourcesOf(batch, xs);
    NotGeneratedAtAll(d, batch, xs, id);
    WholePrefix(d, pr, batch, xs);
    LastMarkStays(d, pr, ys, ss, j, id);
  }

  lemma NotGeneratedAtAll(d: Graph, batch: seq<Candidate>, xs: seq<Decision>, id: NodeId)
    requires (forall x <- xs :: x.candidate in IdsOf(batch)) && !IsGenerated(d, xs, id)
    ensures NotGenerated(d, NormalizedAll(batch, xs), 0, |xs|, id)
  {
    SameCounts(batch, xs, |xs|);
    assert xs[..|xs|] == xs;
  }

  /** A node that no decision marks is as it was. */
  lemma ReviewLeaves(d: Graph, pr: Principal, batch: seq<Candidate>, xs: seq<Decision>, id: NodeId)
    requires (forall x <- xs :: x.candidate in IdsOf(batch)) && id in d.nodes && !IsGenerated(d, xs, id)
    requires forall k | 0 <= k < |xs| :: !Marks(xs[k], id)
    ensures id in Settle(d, pr, batch, xs).0.nodes && Settle(d, pr, batch, xs).0.nodes[id] == d.nodes[id]
  {
    var ys, ss := NormalizedAll(batch, xs), SourcesOf(batch, xs);
    NotGeneratedAtAll(d, batch, xs, id);
    WholePrefix(d, pr, batch, xs);
    assert Prefix(d, pr, ys, ss, 0) == d;
    BetweenLeaves(d, pr, ys, ss, 0, |ys|, id);
  }
}
