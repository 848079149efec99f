/** Runs over projections: as long as no request cites a reference that is read back as a lower revision than its own,
    the revisions a projection is made from strictly rise; a first revision that is no number is kept for good.
 */
module ContextProjectionRuns {
  import opened Common
  import opened ContextProjection
  import opened ContextGraph
  import opened ContextGraphRuns
  import opened ContextTasks

  predicate ProjectsTo(s: Step, k: ProjectionKey) {
    s.ProjectStep? && ProjectionKey(s.pr.project, s.projection.id) == k
  }

  /** What the node of the projection cites. */
  function RefsAt(d: Graph, k: ProjectionKey): set<string> {
    if k in d.projections && d.projections[k] in d.nodes then d.nodes[d.projections[k]].node.sources else {}
  }

  /** The step replaces the stored projection by a version it takes for newer. */
  predicate Replaces(d: Graph, s: Step, k: ProjectionKey) {
    && ProjectsTo(s, k) && k in d.projections && Attempt(d, s).Done?
    && FreshnessOf(s.projection.revision, RefsAt(d, k)) == Newer
  }

  /** No two projections share a node. */
  ghost predicate OwnNodes(d: Graph) {
    forall j, k | j in d.projections && k in d.projections && d.projections[j] == d.projections[k] :: j == k
  }

  // ---------------------------------------------------------------------------------------
  // Steps
  // ---------------------------------------------------------------------------------------

  /** The projections are the same, and so is what the node cites. */
  ghost predicate KeepsCited(d: Graph, d': Graph, id: NodeId) {
    && id in d.nodes && id in d'.nodes && d'.nodes[id].node.sources == d.nodes[id].node.sources
    && d'.projections == d.projections && d.nextSeq <= d'.nextSeq
  }

  lemma {:induction false} AddingKeepsCited(d: Graph, pr: Principal, inputs: seq<NodeInput>, id: NodeId)
    requires id in d.nodes && AddInputs(d, pr, inputs).Done?
    ensures KeepsCited(d, AddInputs(d, pr, inputs).value, id)
    decreases |inputs|
  {
    if inputs != [] { AddingKeepsCited(AddInput(d, pr, inputs[0]).value, pr, inputs[1..], id); }
  }

  lemma {:induction false} ReviewingKeepsCited(d: Graph, pr: Principal, xs: seq<Decision>, sources: seq<seq<string>>,
                                               id: NodeId)
    requires id in d.nodes && id.TaskSeq? && |xs| == |sources|
    ensures KeepsCited(d, ApplyDecisions(d, pr, xs, sources), id)
    decreases |xs|
  {
    if xs != [] { ReviewingKeepsCited(ApplyDecision(d, pr, xs[0], sources[0]), pr, xs[1..], sources[1..], id); }
  }

  /** Nothing but projections changes what a projected node cites. */
  lemma OtherStepKeepsCited(d: Graph, s: Step, k: ProjectionKey)
    requires Sound(d) && k in d.projections && !s.ProjectStep?
    ensures KeepsCited(d, Apply(d, s), d.projections[k])
  {
    var id := d.projections[k];
    assert ProjectionOk(d, k);
    if Attempt(d, s).Done? {
      match s
      case UpdateNodeStep(_, x, _, _) =>
        GeneralIsNotProjected(d, x);
        assert NodeOk(d, x);
      case DeleteNodeStep(_, x, _) => GeneralIsNotProjected(d, x);
      case CreateNodesStep(pr, _, inputs) => AddingKeepsCited(d, pr, inputs, id);
      case ReviewStep(pr, xs, sources) => ReviewingKeepsCited(d, pr, xs, sources, id);
      case _ =>
    }
  }

  lemma OtherStepKeepsProjections(d: Graph, s: Step)
    requires Sound(d) && !s.ProjectStep?
    ensures Apply(d, s).projections == d.projections
  {
    if Attempt(d, s).Done? {
      match s
      case CreateNodesStep(pr, _, inputs) => AddingKeepsProjections(d, pr, inputs);
      case ReviewStep(pr, xs, sources) => ReviewingKeepsProjections(d, pr, xs, sources);
      case _ =>
    }
  }

  lemma {:induction false} AddingKeepsProjections(d: Graph, pr: Principal, inputs: seq<NodeInput>)
    requires AddInputs(d, pr, inputs).Done?
    ensures AddInputs(d, pr, inputs).value.projections == d.projections
    decreases |inputs|
  {
    if inputs != [] { AddingKeepsProjections(AddInput(d, pr, inputs[0]).value, pr, inputs[1..]); }
  }

  lemma {:induction false} ReviewingKeepsProjections(d: Graph, pr: Principal, xs: seq<Decision>,
                                                     sources: seq<seq<string>>)
    requires |xs| == |sources|
    ensures ApplyDecisions(d, pr, xs, sources).projections == d.projections
    decreases |xs|
  {
    if xs != [] { ReviewingKeepsProjections(ApplyDecision(d, pr, xs[0], sources[0]), pr, xs[1..], sources[1..]); }
  }

  lemma StepKeepsOwnNodes(d: Graph, s: Step)
    requires Sound(d) && OwnNodes(d)
    ensures OwnNodes(Apply(d, s)) && d.projections.Keys <= Apply(d, s).projections.Keys
  {
    if !s.ProjectStep? {
      OtherStepKeepsProjections(d, s);
    } else {
      forall k | k in d.projections ensures d.projections[k] != TaskSeq(d.nextSeq + 1) { assert ProjectionOk(d, k); }
    }
  }

  /** The one step that changes what a projected node cites is a projection that replaces it. */
  lemma StepRefs(d: Graph, s: Step, k: ProjectionKey)
    requires Sound(d) && OwnNodes(d) && k in d.projections
    ensures k in Apply(d, s).projections
    ensures RefsAt(Apply(d, s), k) == if Replaces(d, s, k) then ProjectionRefs(s.projection) else RefsAt(d, k)
  {
    assert ProjectionOk(d, k) && NodeOk(d, d.projections[k]);
    if !s.ProjectStep? {
      OtherStepKeepsCited(d, s, k);
    } else if Attempt(d, s).Done? {
      var j := ProjectionKey(s.pr.project, s.projection.id);
      if j in d.projections { assert ProjectionOk(d, j) && NodeOk(d, d.projections[j]); }
    }
  }

  // ---------------------------------------------------------------------------------------
  // Main results
  // ---------------------------------------------------------------------------------------

  /** In every reachable graph each projection has a node of its own. */
  lemma {:induction false} RunKeepsOwnNodes(d: Graph, steps: seq<Step>)
    requires Sound(d) && OwnNodes(d)
    ensures Sound(After(d, steps)) && OwnNodes(After(d, steps))
    decreases |steps|
  {
    if steps != [] {
      StepKeepsSound(d, steps[0]);
      StepKeepsOwnNodes(d, steps[0]);
      RunKeepsOwnNodes(Apply(d, steps[0]), steps[1..]);
    }
  }

  /** What is read back from the request's references is no number or not below its own revision: exactly then only
      a higher revision can replace it. */
  predicate Guarded(p: Projection) {
    ReadsNoLower(ProjectionRefs(p), p.revision)
  }

  predicate GuardedStep(s: Step, k: ProjectionKey) {
    ProjectsTo(s, k) ==> Guarded(s.projection)
  }

  lemma OwnIsCited(p: Projection)
    requires p.revision != ""
    ensures RevisionRef(p.revision) in ProjectionRefs(p) && CarriesRevision(RevisionRef(p.revision))
  {
    var own := RevisionRef(p.revision);
    assert own[..|PREFIX|] == PREFIX;
    assert own in [own] + p.sources && own != "";
  }

  /** A request is guarded when no reference it cites looks like a revision and sorts before its own. */
  lemma OwnFirstIsGuarded(p: Projection)
    requires p.revision != "" && forall r <- p.sources :: CarriesRevision(r) ==> !LexLess(r, RevisionRef(p.revision))
    ensures Guarded(p)
  {
    var own, refs := RevisionRef(p.revision), ProjectionRefs(p);
    OwnIsCited(p);
    NotBelowItself(own);
    assert own[|PREFIX|..] == p.revision;
    forall r | r in refs && First(refs, r) ensures r == own { Total(r, own); }
  }

  lemma SomethingIsRead(p: Projection) returns (v: string)
    requires p.revision != ""
    ensures Reads(ProjectionRefs(p), v)
  {
    OwnIsCited(p);
    var first := SomeFirst(ProjectionRefs(p), RevisionRef(p.revision));
    v := first[|PREFIX|..];
    assert first == RevisionRef(v);
  }

  lemma GuardedReads(p: Projection, v: string)
    requires Guarded(p) && Reads(ProjectionRefs(p), v)
    ensures NotBelow(v, p.revision)
  {
    assert RevisionRef(v)[|PREFIX|..] == v;
  }

  /** The same text, a higher number, or no number. */
  predicate Rises(before: string, after: string) {
    after == before || ParseInt(after).NoNumber? || Compare(after, before) == Newer
  }

  /** Over every run whose requests are guarded, the revision read from a projection only rises. */
  lemma {:induction false} RevisionsRise(d: Graph, steps: seq<Step>, k: ProjectionKey, v: string) returns (v': string)
    requires Sound(d) && OwnNodes(d) && k in d.projections && Reads(RefsAt(d, k), v)
    requires forall s <- steps :: GuardedStep(s, k)
    ensures k in After(d, steps).projections && Reads(RefsAt(After(d, steps), k), v') && Rises(v, v')
    decreases |steps|
  {
    v' := v;
    if steps != [] {
      var s, d' := steps[0], Apply(d, steps[0]);
      assert GuardedStep(s, k);
      StepKeepsSound(d, s);
      StepKeepsOwnNodes(d, s);
      StepRefs(d, s, k);
      var w := v;
      if Replaces(d, s, k) { w := ReplacementRises(d, s, k, v); }
      v' := RevisionsRise(d', steps[1..], k, w);
      StaysUnread(d', steps[1..], k, w, v');
    }
  }

  lemma ReplacementRises(d: Graph, s: Step, k: ProjectionKey, v: string) returns (w: string)
    requires Replaces(d, s, k) && Reads(RefsAt(d, k), v) && Guarded(s.projection)
    ensures Reads(ProjectionRefs(s.projection), w) && Rises(v, w)
  {
    w := SomethingIsRead(s.projection);
    GuardedReads(s.projection, w);
    ComparedWithRead(s.projection.revision, RefsAt(d, k), v);
  }

  /** What is no number stays what is read. */
  lemma StaysUnread(d: Graph, steps: seq<Step>, k: ProjectionKey, v: string, v': string)
    requires Sound(d) && OwnNodes(d) && k in d.projections && Reads(RefsAt(d, k), v)
    requires Reads(RefsAt(After(d, steps), k), v')
    ensures ParseInt(v).NoNumber? ==> v' == v
  {
    if ParseInt(v).NoNumber? {
      UnreadableIsNeverReplaced(d, steps, k, v);
      Total(RevisionRef(v), RevisionRef(v'));
      assert RevisionRef(v)[|PREFIX|..] == v && RevisionRef(v')[|PREFIX|..] == v';
    }
  }

  lemma StoredRefs(d: Graph, s: Step, k: ProjectionKey)
    requires Sound(d) && OwnNodes(d) && ProjectsTo(s, k)
    requires if k in d.projections then Replaces(d, s, k) else Attempt(d, s).Done?
    ensures k in Apply(d, s).projections && RefsAt(Apply(d, s), k) == ProjectionRefs(s.projection)
    ensures s.projection.revision != ""
  {
    if k in d.projections { StepRefs(d, s, k); }
  }

  /** Of two projections that were both stored, the later was made from the higher revision, whatever happens in
      between. */
  lemma LaterProjectionIsNewer(d: Graph, first: Step, steps: seq<Step>, later: Step, k: ProjectionKey)
    requires Sound(d) && OwnNodes(d) && ProjectsTo(first, k) && GuardedStep(first, k)
    requires if k in d.projections then Replaces(d, first, k) else Attempt(d, first).Done?
    requires forall s <- steps :: GuardedStep(s, k)
    requires Replaces(After(Apply(d, first), steps), later, k)
    ensures Compare(later.projection.revision, first.projection.revision) == Newer
  {
    var p, d' := first.projection, Apply(d, first);
    StoredRefs(d, first, k);
    var read := SomethingIsRead(p);
    GuardedReads(p, read);
    StepKeepsSound(d, first);
    StepKeepsOwnNodes(d, first);
    var v := RevisionsRise(d', steps, k, read);
    StaysUnread(d', steps, k, read, v);
    ComparedWithRead(later.projection.revision, RefsAt(After(d', steps), k), v);
  }

  /** A projection whose references give no number is never replaced. */
  lemma {:induction false} UnreadableIsNeverReplaced(d: Graph, steps: seq<Step>, k: ProjectionKey, v: string)
    requires Sound(d) && OwnNodes(d) && k in d.projections && Reads(RefsAt(d, k), v) && ParseInt(v).NoNumber?
    ensures k in After(d, steps).projections && RefsAt(After(d, steps), k) == RefsAt(d, k)
    ensures forall s | ProjectsTo(s, k) :: Attempt(After(d, steps), s).Refused?
    decreases |steps|
  {
    if steps == [] {
      forall s | ProjectsTo(s, k) ensures Attempt(d, s).Refused? {
        ComparedWithRead(s.projection.revision, RefsAt(d, k), v);
      }
    } else {
      StepKeepsSound(d, steps[0]);
      StepKeepsOwnNodes(d, steps[0]);
      StepRefs(d, steps[0], k);
      if steps[0].ProjectStep? { ComparedWithRead(steps[0].projection.revision, RefsAt(d, k), v); }
      UnreadableIsNeverReplaced(Apply(d, steps[0]), steps[1..], k, v);
    }
  }

  // ---------------------------------------------------------------------------------------
  // A cited revision
  // ---------------------------------------------------------------------------------------

  /** Revision 9, citing a reference that looks like revision 1. */
  function Citing(pr: Principal, task: TaskId): Projection {
    OneProjection(pr, task).(revision := "9", sources := [RevisionRef("1")])
  }

  function Older(pr: Principal, task: TaskId): Projection {
    OneProjection(pr, task).(revision := "5", statement := "older")
  }

  lemma LowerIsNewer()
    ensures Compare("5", "1") == Newer && Compare("9", "5") == Newer
  {
    assert DigitsValue("1") == 1 && DigitsValue("5") == 5 && DigitsValue("9") == 9;
  }

  lemma CitedIsRead(pr: Principal, task: TaskId)
    ensures Reads(ProjectionRefs(Citing(pr, task)), "1") && RevisionRef("9") in ProjectionRefs(Citing(pr, task))
  {
    var one, nine := RevisionRef("1"), RevisionRef("9");
    assert ProjectionRefs(Citing(pr, task)) == {one, nine} by { assert one in [nine, one] && nine in [nine, one]; }
    assert CarriesRevision(one) by { assert one[..|PREFIX|] == PREFIX; }
    NotBelowItself(one);
    CommonPrefix(PREFIX, "9", "1");
  }

  lemma BoundAgain(d: Graph, d': Graph, pr: Principal, p: Projection, p': Projection)
    requires ProjectionBound(d, pr, p) && SameShape(d, d') && d'.bindings == d.bindings
    requires p' == p.(revision := p'.revision, statement := p'.statement, sources := p'.sources)
    requires p'.revision != "" && p'.statement != "" && p'.sources != []
    ensures ProjectionBound(d', pr, p')
  {
  }

  /** The graph in which the task has that projection. */
  function Cited(pr: Principal, task: TaskId): Graph {
    After(EMPTY, [RegisterStep(pr, task, true), ProjectStep(pr, Citing(pr, task))])
  }

  lemma CitedIs(pr: Principal, task: TaskId)
    requires task != ""
    ensures var d, k := Cited(pr, task), ProjectionKey(pr.project, "p");
            && k in d.projections && d.projections[k] == TaskSeq(1) && TaskSeq(1) in d.nodes
            && d.nodes[TaskSeq(1)].project == pr.project && d.nodes[TaskSeq(1)].node.id == TaskSeq(1)
            && RefsAt(d, k) == ProjectionRefs(Citing(pr, task)) && ProjectionBound(d, pr, Older(pr, task))
  {
    var p := Citing(pr, task);
    var steps := [RegisterStep(pr, task, true), ProjectStep(pr, p)];
    var d1 := Apply(EMPTY, steps[0]);
    var d2 := Apply(d1, steps[1]);
    OneTaskBound(pr, task);
    BoundAgain(d1, d1, pr, OneProjection(pr, task), p);
    assert Cited(pr, task) == d2 by {
      assert steps[1..] == [steps[1]] && [steps[1]][1..] == [];
      assert After(d1, [steps[1]]) == d2 by { assert After(d2, []) == d2; }
    }
    assert SameShape(d1, d2);
    BoundAgain(d1, d2, pr, OneProjection(pr, task), Older(pr, task));
  }

  lemma NewerIsStored(d: Graph, pr: Principal, p: Projection)
    requires var k := ProjectionKey(pr.project, p.id);
             && ProjectionBound(d, pr, p) && k in d.projections && d.projections[k] in d.nodes
             && d.nodes[d.projections[k]].project == pr.project
             && FreshnessOf(p.revision, d.nodes[d.projections[k]].node.sources) == Newer
    ensures ProjectTaskContext(d, pr, p)
            == Done(Reprojected(d, d.nodes[d.projections[ProjectionKey(pr.project, p.id)]], p))
  {
  }

  /** A projection made from revision 9 that cites such a reference is replaced by one made from revision 5. */
  lemma OlderReplacesNewer(pr: Principal, task: TaskId)
    requires task != ""
    ensures var d := Cited(pr, task);
            && TaskSeq(1) in d.nodes && RevisionRef("9") in d.nodes[TaskSeq(1)].node.sources
            && ProjectTaskContext(d, pr, Older(pr, task)) == Done(Reprojected(d, d.nodes[TaskSeq(1)], Older(pr, task)))
    ensures Older(pr, task).revision == "5" && Compare("9", "5") == Newer
  {
    CitedIs(pr, task);
    assert FreshnessOf("5", ProjectionRefs(Citing(pr, task))) == Newer && Compare("9", "5") == Newer by {
      CitedIsRead(pr, task);
      LowerIsNewer();
      ComparedWithRead("5", ProjectionRefs(Citing(pr, task)), "1");
    }
    assert RevisionRef("9") in ProjectionRefs(Citing(pr, task)) by { CitedIsRead(pr, task); }
    NewerIsStored(Cited(pr, task), pr, Older(pr, task));
  }
}
