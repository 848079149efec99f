/** The revisions of the graph: every one that was ever current can be read back, unchanged, in every later state. */
module CoordinationHistory {
  import opened Coordination
  import opened CoordinationRuns

  /** Every revision so far is kept, and the latest is the graph itself. */
  ghost predicate HistoryOk(p: Project) {
    && p.latest >= 1 && (forall v :: v in p.history <==> 1 <= v <= p.latest)
    && p.history[p.latest] == p.graph
  }

  /** Nothing is lost from the history, and the graph changes only with the revision. */
  predicate HistoryGrows(p: Project, q: Project) {
    && (forall v <- p.history :: v in q.history && q.history[v] == p.history[v])
    && p.latest <= q.latest && (q.latest == p.latest ==> q.graph == p.graph)
  }

  lemma StepKeepsHistory(p: Project, s: Step)
    requires HistoryOk(p)
    ensures HistoryOk(Apply(p, s)) && HistoryGrows(p, Apply(p, s))
  {
    if s.DoWriteGraph? {
    } else {
      SameHistory(p, s);
    }
  }

  lemma SameHistory(p: Project, s: Step)
    requires !s.DoWriteGraph?
    ensures var q := Apply(p, s); q.graph == p.graph && q.latest == p.latest && q.history == p.history
  {
  }

  lemma {:induction false} RunKeepsHistory(p: Project, steps: seq<Step>)
    requires HistoryOk(p)
    ensures HistoryOk(After(p, steps)) && HistoryGrows(p, After(p, steps))
    decreases |steps|
  {
    if steps != [] {
      StepKeepsHistory(p, steps[0]);
      RunKeepsHistory(Apply(p, steps[0]), steps[1..]);
    }
  }

  lemma RevisionsStay(p: Project, steps: seq<Step>, i: nat, j: nat)
    requires HistoryOk(p) && IsRunOf(p, steps) && i <= j <= |steps|
    ensures HistoryOk(After(p, steps[..i])) && HistoryOk(After(p, steps[..j]))
    ensures HistoryGrows(After(p, steps[..i]), After(p, steps[..j]))
  {
    RunSplit(p, steps, j);
    RunSplit(p, steps[..j], i);
    assert steps[..j][..i] == steps[..i];
    RunKeepsHistory(p, steps[..i]);
    RunKeepsHistory(After(p, steps[..i]), steps[..j][i..]);
  }

  /** In every run from the initial state, the graph that was current at any point is what its revision number reads in
      every later state, and two points with the same latest revision have the same graph. */
  lemma RevisionIdentifiesGraph(steps: seq<Step>, i: nat, j: nat)
    requires IsRunOf(INITIAL, steps) && i <= j <= |steps|
    ensures var a, b := After(INITIAL, steps[..i]), After(INITIAL, steps[..j]);
            && a.latest in b.history && b.history[a.latest] == a.graph
            && a.latest <= b.latest && (a.latest == b.latest ==> a.graph == b.graph)
            && forall v :: v in b.history <==> 1 <= v <= b.latest
  {
    RevisionsStay(INITIAL, steps, i, j);
  }

  /** A graph write is accepted exactly at the latest revision, and makes its graph the next one. */
  lemma WriteAcceptedIff(p: Project, expected: int, g: Graph, bs: map<BindingRef, BindingInfo>)
    requires HistoryOk(p)
    ensures WriteGraph(p, expected, g, bs).Ok? <==> expected == p.latest
    ensures WriteGraph(p, expected, g, bs).Ok? ==>
              var q := WriteGraph(p, expected, g, bs).value;
              && q.latest == p.latest + 1 && q.graph == g && q.history == p.history[p.latest + 1 := g]
              && q.commands == p.commands && q.leases == p.leases && q.observations == p.observations
              && forall b :: b in q.bindings <==> b in p.bindings || b in bs
  {
  }
}
