/** Runs over task memories: a memory only moves from open to frozen to reviewed, its batch is fixed once frozen,
    its receipt once reviewed, and a receipt settles its batch exactly.
 */
module ContextReviewRuns {
  import opened ContextGraph
  import opened ContextReview

  datatype World = World(graph: Graph, memory: Memory)

  /** Other changes of the graph are arbitrary. */
  datatype Step =
    | CandidateStep(pr: Principal, request: CandidateRequest, acceptable: bool)
    | FinalizeStep(pr: Principal, task: TaskId, taskDone: bool)
    | ReviewStep(pr: Principal, decisions: seq<Decision>)
    | GraphStep(graph: Graph)

  ghost function Apply(w: World, s: Step): World {
    match s
    case CandidateStep(pr, q, ok) =>
      var r := SubmitCandidate(w.memory, w.graph, pr, q, ok);
      if r.Done? then w.(memory := r.value) else w
    case FinalizeStep(pr, task, taskDone) =>
      var r := FinalizeTaskMemory(w.memory, pr, task, taskDone);
      if r.Done? then w.(memory := r.value) else w
    case ReviewStep(pr, xs) =>
      var r := SubmitReview(w.memory, w.graph, pr, xs);
      World(r.1, r.2)
    case GraphStep(d) => w.(graph := d)
  }

  ghost function After(w: World, steps: seq<Step>): World
    decreases |steps|
  {
    if steps == [] then w else After(Apply(w, steps[0]), steps[1..])
  }

  // ---------------------------------------------------------------------------------------
  // What every run keeps
  // ---------------------------------------------------------------------------------------

  /** The receipt decides every candidate of the batch once, by a node or by a rejection. */
  ghost predicate Settles(batch: seq<Candidate>, r: Receipt) {
    && |r.reviewed| == |batch| && |r.nodes| + |r.rejected| == |batch|
    && (forall i, j | 0 <= i < j < |r.reviewed| :: r.reviewed[i] != r.reviewed[j])
    && (forall c <- batch :: c.id in r.reviewed)
    && (forall id <- r.rejected :: id in r.reviewed)
  }

  ghost predicate Numbered(batch: seq<Candidate>, k: TaskKey) {
    forall i | 0 <= i < |batch| :: batch[i].id == CandidateText(k, i + 1)
  }

  /** Candidates are numbered, and exactly a reviewed memory has a receipt, which settles it. */
  ghost predicate MemoryOk(m: Memory, k: TaskKey) {
    && Numbered(m.Batch(k), k)
    && (m.State(k) == Reviewed <==> k in m.receipts)
    && (k in m.receipts ==> Settles(m.Batch(k), m.receipts[k]))
  }

  ghost predicate Inv(m: Memory) {
    forall k {:trigger MemoryOk(m, k)} :: MemoryOk(m, k)
  }

  function Rank(s: MemoryState): nat {
    match s case Open => 0 case Frozen => 1 case Reviewed => 2
  }

  /** From m to m' the memory of the task only moved forward. */
  ghost predicate Forward(m: Memory, m': Memory, k: TaskKey) {
    && Rank(m.State(k)) <= Rank(m'.State(k))
    && m.Batch(k) <= m'.Batch(k)
    && (m.State(k) != Open ==> m'.Batch(k) == m.Batch(k))
    && (k in m.receipts ==> k in m'.receipts && m'.receipts[k] == m.receipts[k])
  }

  lemma CoveringReceiptSettles(d: Graph, pr: Principal, batch: seq<Candidate>, xs: seq<Decision>)
    requires Covers(batch, xs)
    ensures Settles(batch, Settle(d, pr, batch, xs).1)
  {
    var ys := NormalizedAll(batch, xs);
    var r := Settle(d, pr, batch, xs).1;
    assert forall i | 0 <= i < |xs| :: r.reviewed[i] == xs[i].candidate;
    CreatedPlusRejected(d.nextSeq, ys);
    forall c | c in batch ensures c.id in r.reviewed {
      EveryCandidateDecidedOnce(batch, xs, c);
      var i :| 0 <= i < |xs| && xs[i].candidate == c.id;
      assert r.reviewed[i] == c.id;
    }
    RejectedAreReviewed(ys);
  }

  lemma {:induction false} RejectedAreReviewed(xs: seq<Decision>)
    ensures forall id <- Rejected(xs) :: id in Candidates(xs)
  {
    if xs != [] {
      var n := |xs| - 1;
      RejectedAreReviewed(xs[..n]);
      assert Candidates(xs) == Candidates(xs[..n]) + [xs[n].candidate];
    }
  }

  lemma ReviewStepKeeps(m: Memory, d: Graph, pr: Principal, xs: seq<Decision>, k: TaskKey)
    requires MemoryOk(m, k)
    ensures MemoryOk(SubmitReview(m, d, pr, xs).2, k) && Forward(m, SubmitReview(m, d, pr, xs).2, k)
  {
    var m' := SubmitReview(m, d, pr, xs).2;
    assert m'.Batch(k) == m.Batch(k);
    if k != TaskKey(pr.project, pr.task) {
      assert m'.State(k) == m.State(k);
    } else if pr.task != "" && m.State(k) == Frozen && Acceptable(d, pr, m.Batch(k), xs) {
      CoveringReceiptSettles(d, pr, m.Batch(k), xs);
    }
  }

  lemma CandidateStepKeeps(m: Memory, d: Graph, pr: Principal, q: CandidateRequest, ok: bool, k: TaskKey)
    requires MemoryOk(m, k) && SubmitCandidate(m, d, pr, q, ok).Done?
    ensures MemoryOk(SubmitCandidate(m, d, pr, q, ok).value, k) && Forward(m, SubmitCandidate(m, d, pr, q, ok).value, k)
  {
    var m' := SubmitCandidate(m, d, pr, q, ok).value;
    assert m'.State(k) == m.State(k);
    if k != TaskKey(pr.project, pr.task) { assert m'.Batch(k) == m.Batch(k); }
  }

  lemma FinalizeStepKeeps(m: Memory, pr: Principal, task: TaskId, taskDone: bool, k: TaskKey)
    requires MemoryOk(m, k) && FinalizeTaskMemory(m, pr, task, taskDone).Done?
    ensures MemoryOk(FinalizeTaskMemory(m, pr, task, taskDone).value, k)
    ensures Forward(m, FinalizeTaskMemory(m, pr, task, taskDone).value, k)
  {
    assert FinalizeTaskMemory(m, pr, task, taskDone).value.Batch(k) == m.Batch(k);
  }

  lemma StepKeeps(w: World, s: Step, k: TaskKey)
    requires Inv(w.memory)
    ensures MemoryOk(Apply(w, s).memory, k) && Forward(w.memory, Apply(w, s).memory, k)
  {
    var m := w.memory;
    assert MemoryOk(m, k);
    match s
    case ReviewStep(pr, xs) => ReviewStepKeeps(m, w.graph, pr, xs, k);
    case CandidateStep(pr, q, ok) =>
      if SubmitCandidate(m, w.graph, pr, q, ok).Done? { CandidateStepKeeps(m, w.graph, pr, q, ok, k); }
    case FinalizeStep(pr, task, taskDone) =>
      if FinalizeTaskMemory(m, pr, task, taskDone).Done? { FinalizeStepKeeps(m, pr, task, taskDone, k); }
    case GraphStep(_) =>
  }

  lemma CandidateKeepsInv(m: Memory, d: Graph, pr: Principal, q: CandidateRequest, ok: bool)
    requires Inv(m) && SubmitCandidate(m, d, pr, q, ok).Done?
    ensures Inv(SubmitCandidate(m, d, pr, q, ok).value)
  {
    var m' := SubmitCandidate(m, d, pr, q, ok).value;
    forall k ensures MemoryOk(m', k) {
      assert MemoryOk(m, k);
      CandidateStepKeeps(m, d, pr, q, ok, k);
    }
  }

  lemma FinalizeKeepsInv(m: Memory, pr: Principal, task: TaskId, taskDone: bool)
    requires Inv(m) && FinalizeTaskMemory(m, pr, task, taskDone).Done?
    ensures Inv(FinalizeTaskMemory(m, pr, task, taskDone).value)
  {
    var m' := FinalizeTaskMemory(m, pr, task, taskDone).value;
    forall k ensures MemoryOk(m', k) {
      assert MemoryOk(m, k);
      FinalizeStepKeeps(m, pr, task, taskDone, k);
    }
  }

  lemma ReviewKeepsInv(m: Memory, d: Graph, pr: Principal, xs: seq<Decision>)
    requires Inv(m)
    ensures Inv(SubmitReview(m, d, pr, xs).2)
  {
    forall k ensures MemoryOk(SubmitReview(m, d, pr, xs).2, k) {
      assert MemoryOk(m, k);
      ReviewStepKeeps(m, d, pr, xs, k);
    }
  }

  lemma StepKeepsInv(w: World, s: Step)
    requires Inv(w.memory)
    ensures Inv(Apply(w, s).memory)
  {
    forall k ensures MemoryOk(Apply(w, s).memory, k) { StepKeeps(w, s, k); }
  }

  lemma {:induction false} RunKeeps(w: World, steps: seq<Step>, k: TaskKey)
    requires Inv(w.memory)
    ensures MemoryOk(After(w, steps).memory, k) && Forward(w.memory, After(w, steps).memory, k)
    decreases |steps|
  {
    if steps == [] {
      assert MemoryOk(w.memory, k);
    } else {
      var w' := Apply(w, steps[0]);
      StepKeepsInv(w, steps[0]);
      StepKeeps(w, steps[0], k);
      RunKeeps(w', steps[1..], k);
    }
  }

  // ---------------------------------------------------------------------------------------
  // Main results
  // ---------------------------------------------------------------------------------------

  const NOTHING := Memory(map[], map[], map[])

  /** In every reachable state, a reviewed memory has decided each candidate of its batch exactly once, and
      the nodes created and the candidates rejected add up to the batch. */
  lemma ReviewedMeansSettled(d: Graph, steps: seq<Step>, k: TaskKey)
    ensures var m := After(World(d, NOTHING), steps).memory;
            m.State(k) == Reviewed ==> k in m.receipts && Settles(m.Batch(k), m.receipts[k])
  {
    RunKeeps(World(d, NOTHING), steps, k);
  }

  /** From freezing on the batch is fixed, from review on the receipt, and the state never moves back. */
  lemma MemoryOnlyMovesForward(w: World, steps: seq<Step>, k: TaskKey)
    requires Inv(w.memory)
    ensures var m, m' := w.memory, After(w, steps).memory;
            && Rank(m.State(k)) <= Rank(m'.State(k))
            && (m.State(k) != Open ==> m'.Batch(k) == m.Batch(k))
            && (m.State(k) == Reviewed ==> k in m.receipts && k in m'.receipts && m'.receipts[k] == m.receipts[k])
  {
    assert MemoryOk(w.memory, k);
    RunKeeps(w, steps, k);
  }

  /** Submitting again after the review returns the first receipt and changes nothing, whatever is submitted. */
  lemma ReviewIsIdempotent(w: World, steps: seq<Step>, pr: Principal, xs: seq<Decision>)
    requires Inv(w.memory) && pr.task != "" && w.memory.State(TaskKey(pr.project, pr.task)) == Reviewed
    ensures var k, w' := TaskKey(pr.project, pr.task), After(w, steps);
            k in w.memory.receipts
            && SubmitReview(w'.memory, w'.graph, pr, xs) == (Done(w.memory.receipts[k]), w'.graph, w'.memory)
  {
    assert MemoryOk(w.memory, TaskKey(pr.project, pr.task));
    RunKeeps(w, steps, TaskKey(pr.project, pr.task));
  }

  /** Candidates of one task never share an id. */
  lemma CandidateIdsDistinct(d: Graph, steps: seq<Step>, k: TaskKey, i: nat, j: nat)
    requires i < j < |After(World(d, NOTHING), steps).memory.Batch(k)|
    ensures var batch := After(World(d, NOTHING), steps).memory.Batch(k); batch[i].id != batch[j].id
  {
    RunKeeps(World(d, NOTHING), steps, k);
    if CandidateText(k, i + 1) == CandidateText(k, j + 1) { CandidateTextInjective(k, i + 1, j + 1); }
  }

  function RejectAll(batch: seq<Candidate>): seq<Decision> {
    seq(|batch|, i requires 0 <= i < |batch| => Decision(batch[i].id, Reject, "", "", [], Named("")))
  }

  /** A frozen memory can always be settled: rejecting every candidate is accepted in any graph. */
  lemma FrozenCanAlwaysBeReviewed(d: Graph, steps: seq<Step>, pr: Principal)
    requires pr.task != ""
    requires After(World(d, NOTHING), steps).memory.State(TaskKey(pr.project, pr.task)) == Frozen
    ensures var w, k := After(World(d, NOTHING), steps), TaskKey(pr.project, pr.task);
            SubmitReview(w.memory, w.graph, pr, RejectAll(w.memory.Batch(k))).0.Done?
  {
    var w, k := After(World(d, NOTHING), steps), TaskKey(pr.project, pr.task);
    var batch := w.memory.Batch(k);
    var xs := RejectAll(batch);
    forall i, j | 0 <= i < j < |xs| ensures xs[i].candidate != xs[j].candidate {
      CandidateIdsDistinct(d, steps, k, i, j);
    }
    forall x | x in xs ensures x.candidate in IdsOf(batch) {
      var i :| 0 <= i < |xs| && xs[i] == x;
      assert batch[i] in batch;
    }
    assert Covers(batch, xs);
  }
}
