/** A task's memory: candidates are collected while it is open, frozen into a batch, and settled by one review
    that decides every candidate exactly once.
 */
module ContextReview {
  import opened Common
  import opened ContextGraph
  import opened ContextGraphRuns
  import Ids

  datatype Candidate = Candidate(
    id: string, statement: string, kind: string, sources: seq<string>, subgraphs: seq<SubgraphId>, creator: string)

  datatype MemoryState = Open | Frozen | Reviewed

  /** The ids a review settled, in the order of its decisions. */
  datatype Receipt = Receipt(task: TaskId, reviewed: seq<string>, nodes: seq<NodeId>, rejected: seq<string>)

  datatype Memory = Memory(
    candidates: map<TaskKey, seq<Candidate>>,
    states: map<TaskKey, MemoryState>,
    receipts: map<TaskKey, Receipt>)
  {
    /** A task without a record is open and has no candidates. */
    function State(k: TaskKey): MemoryState {
      if k in states then states[k] else Open
    }

    function Batch(k: TaskKey): seq<Candidate> {
      if k in candidates then candidates[k] else []
    }
  }

  // ---------------------------------------------------------------------------------------
  // Collecting and freezing
  // ---------------------------------------------------------------------------------------

  datatype CandidateRequest = CandidateRequest(
    statement: string, kind: string, sources: seq<string>, subgraphs: seq<SubgraphId>)

  function CandidateText(k: TaskKey, n: nat): string {
    "candidate-" + k.project + "-" + k.task + "-" + Ids.Digits(n)
  }

  lemma CandidateTextInjective(k: TaskKey, m: nat, n: nat)
    requires CandidateText(k, m) == CandidateText(k, n)
    ensures m == n
  {
    var prefix := "candidate-" + k.project + "-" + k.task + "-";
    assert CandidateText(k, m)[|prefix|..] == Ids.Digits(m);
    assert CandidateText(k, n)[|prefix|..] == Ids.Digits(n);
    Ids.DigitsInjective(m, n);
  }

  /** One candidate more, under the next number of its task. Whether the statement is acceptable and the nodes
      it cites are visible is decided before. */
  function SubmitCandidate(m: Memory, d: Graph, pr: Principal, q: CandidateRequest, acceptable: bool): Outcome<Memory> {
    var k := TaskKey(pr.project, pr.task);
    if pr.task == "" || !acceptable || !ValidKind(q.kind) || q.sources == [] || m.State(k) != Open
       || HasTaskMembership(d.subgraphs, set g | g in q.subgraphs) then Refused
    else
      var c := Candidate(CandidateText(k, |m.Batch(k)| + 1), q.statement, q.kind, q.sources, q.subgraphs, pr.actor);
      Done(m.(candidates := m.candidates[k := m.Batch(k) + [c]]))
  }

  /** Closes an open memory once its task is done. */
  function FinalizeTaskMemory(m: Memory, pr: Principal, task: TaskId, taskDone: bool): Outcome<Memory> {
    var t := if task == "" then pr.task else task;
    var k := TaskKey(pr.project, t);
    if t == "" || !taskDone then Refused
    else if m.State(k) == Open then Done(m.(states := m.states[k := Frozen]))
    else Done(m)
  }

  // ---------------------------------------------------------------------------------------
  // Reviewing
  // ---------------------------------------------------------------------------------------

  ghost predicate DistinctDecisions(xs: seq<Decision>) {
    forall i, j | 0 <= i < j < |xs| :: xs[i].candidate != xs[j].candidate
  }

  function IdsOf(batch: seq<Candidate>): set<string> {
    set c <- batch :: c.id
  }

  /** As many decisions as candidates, none twice, none about anything else. */
  ghost predicate Covers(batch: seq<Candidate>, xs: seq<Decision>) {
    && |xs| == |batch| && DistinctDecisions(xs)
    && forall x <- xs :: x.candidate in IdsOf(batch)
  }

  /** The record a decision is about; of two with one id the later is taken, as a map filled in order would. */
  function RecordOf(batch: seq<Candidate>, id: string): (c: Candidate)
    requires id in IdsOf(batch)
    ensures c in batch && c.id == id
  {
    var last := batch[|batch| - 1];
    if last.id == id then last
    else
      assert batch == batch[..|batch| - 1] + [last];
      RecordOf(batch[..|batch| - 1], id)
  }

  /** What a decision leaves open is taken from the candidate. */
  function Normalized(c: Candidate, x: Decision): Decision {
    x.(statement := if x.statement == "" then c.statement else x.statement,
       kind := if x.kind == "" then c.kind else x.kind,
       subgraphs := if x.subgraphs == [] then c.subgraphs else x.subgraphs)
  }

  function NormalizedAll(batch: seq<Candidate>, xs: seq<Decision>): (ys: seq<Decision>)
    requires forall x <- xs :: x.candidate in IdsOf(batch)
    ensures |ys| == |xs|
  {
    seq(|xs|, i requires 0 <= i < |xs| => Normalized(RecordOf(batch, xs[i].candidate), xs[i]))
  }

  function SourcesOf(batch: seq<Candidate>, xs: seq<Decision>): (ss: seq<seq<string>>)
    requires forall x <- xs :: x.candidate in IdsOf(batch)
    ensures |ss| == |xs|
  {
    seq(|xs|, i requires 0 <= i < |xs| => RecordOf(batch, xs[i].candidate).sources)
  }

  function Candidates(xs: seq<Decision>): seq<string> {
    seq(|xs|, i requires 0 <= i < |xs| => xs[i].candidate)
  }

  function Rejected(xs: seq<Decision>): seq<string> {
    if xs == [] then []
    else Rejected(xs[..|xs| - 1]) + (if xs[|xs| - 1].action == Reject then [xs[|xs| - 1].candidate] else [])
  }

  /** The ids that decisions other than rejections generate. */
  function Created(nextSeq: nat, xs: seq<Decision>): seq<NodeId> {
    if xs == [] then []
    else
      var front := Created(nextSeq, xs[..|xs| - 1]);
      front + (if xs[|xs| - 1].action == Reject then [] else [ReviewSeq(nextSeq + |front| + 1)])
  }

  function ReceiptFor(d: Graph, task: TaskId, xs: seq<Decision>): Receipt {
    Receipt(task, Candidates(xs), Created(d.nextSeq, xs), Rejected(xs))
  }

  ghost predicate Acceptable(d: Graph, pr: Principal, batch: seq<Candidate>, xs: seq<Decision>) {
    Covers(batch, xs) && forall y <- NormalizedAll(batch, xs) :: DecisionValid(d, pr, y)
  }

  /** The graph and receipt an accepted review leaves. */
  function Settle(d: Graph, pr: Principal, batch: seq<Candidate>, xs: seq<Decision>): (Graph, Receipt)
    requires forall x <- xs :: x.candidate in IdsOf(batch)
  {
    var ys := NormalizedAll(batch, xs);
    var d' := ApplyDecisions(d, pr, ys, SourcesOf(batch, xs));
    (d'.(revision := d'.revision + 1), ReceiptFor(d, pr.task, ys))
  }

  /** An accepted review leaves a sound graph. */
  lemma SettlingKeepsSound(d: Graph, pr: Principal, batch: seq<Candidate>, xs: seq<Decision>)
    requires Sound(d) && Acceptable(d, pr, batch, xs)
    ensures Sound(Settle(d, pr, batch, xs).0)
  {
    ReviewBatchKeeps(d, pr, NormalizedAll(batch, xs), SourcesOf(batch, xs));
  }

  /** What a submission leaves: the outcome, the graph and the memory. */
  ghost function SubmitReview(m: Memory, d: Graph, pr: Principal, xs: seq<Decision>): (Outcome<Receipt>, Graph, Memory)
  {
    var k := TaskKey(pr.project, pr.task);
    if pr.task == "" then (Refused, d, m)
    else if m.State(k) == Reviewed && k in m.receipts then (Done(m.receipts[k]), d, m)
    else if m.State(k) != Frozen || !Acceptable(d, pr, m.Batch(k), xs) then (Refused, d, m)
    else
      var s := Settle(d, pr, m.Batch(k), xs);
      (Done(s.1), s.0, m.(states := m.states[k := Reviewed], receipts := m.receipts[k := s.1]))
  }

  // ---------------------------------------------------------------------------------------
  // Every candidate is decided exactly once
  // ---------------------------------------------------------------------------------------

  /** A list of names without repetition is as long as the set of them. */
  lemma {:induction false} DistinctSize(xs: seq<Decision>)
    requires DistinctDecisions(xs)
    ensures |set x <- xs :: x.candidate| == |xs|
  {
    if xs != [] {
      var n := |xs| - 1;
      DistinctSize(xs[..n]);
      var front := set x <- xs[..n] :: x.candidate;
      assert xs == xs[..n] + [xs[n]];
      assert xs[n].candidate !in front;
      assert (set x <- xs :: x.candidate) == front + {xs[n].candidate};
    }
  }

  lemma {:induction false} IdsBound(batch: seq<Candidate>)
    ensures |IdsOf(batch)| <= |batch|
  {
    if batch != [] {
      var n := |batch| - 1;
      IdsBound(batch[..n]);
      assert batch == batch[..n] + [batch[n]];
      assert IdsOf(batch) == IdsOf(batch[..n]) + {batch[n].id};
    }
  }

  /** Equal length, no repetition and nothing foreign leave no candidate out. */
  lemma EveryCandidateDecidedOnce(batch: seq<Candidate>, xs: seq<Decision>, c: Candidate)
    requires Covers(batch, xs) && c in batch
    ensures exists i | 0 <= i < |xs| ::
              xs[i].candidate == c.id && forall j | 0 <= j < |xs| && xs[j].candidate == c.id :: j == i
  {
    var decided := set x <- xs :: x.candidate;
    DistinctSize(xs);
    IdsBound(batch);
    SubsetOfSameSize(decided, IdsOf(batch));
    assert c.id in decided;
    var i :| 0 <= i < |xs| && xs[i].candidate == c.id;
  }

  /** Each decision creates one node or rejects one candidate. */
  lemma {:induction false} CreatedPlusRejected(nextSeq: nat, xs: seq<Decision>)
    ensures |Created(nextSeq, xs)| + |Rejected(xs)| == |xs|
  {
    if xs != [] { CreatedPlusRejected(nextSeq, xs[..|xs| - 1]); }
  }

  // ---------------------------------------------------------------------------------------
  // What the review stores
  // ---------------------------------------------------------------------------------------

  lemma {:induction false} ApplyOneMore(d: Graph, pr: Principal, xs: seq<Decision>, ss: seq<seq<string>>)
    requires |xs| == |ss| > 0
    ensures var n := |xs| - 1;
            ApplyDecisions(d, pr, xs, ss) == ApplyDecision(ApplyDecisions(d, pr, xs[..n], ss[..n]), pr, xs[n], ss[n])
    decreases |xs|
  {
    var n := |xs| - 1;
    if n == 0 {
      assert xs[1..] == [] && ss[1..] == [];
    } else {
      ApplyOneMore(ApplyDecision(d, pr, xs[0], ss[0]), pr, xs[1..], ss[1..]);
      assert xs[1..][..n - 1] == xs[..n][1..] && ss[1..][..n - 1] == ss[..n][1..];
    }
  }

  function SetOf<T>(xs: seq<T>): set<T> {
    set x <- xs
  }

  /** The generated ids are consecutive. */
  lemma {:induction false} CreatedAt(nextSeq: nat, xs: seq<Decision>)
    ensures forall i | 0 <= i < |Created(nextSeq, xs)| :: Created(nextSeq, xs)[i] == ReviewSeq(nextSeq + 1 + i)
  {
    if xs != [] { CreatedAt(nextSeq, xs[..|xs| - 1]); }
  }

  lemma DecisionIds(d: Graph, pr: Principal, x: Decision, sources: seq<string>)
    ensures var d' := ApplyDecision(d, pr, x, sources);
            if x.action == Reject then d' == d
            else d'.nextSeq == d.nextSeq + 1 && d'.nodes.Keys == d.nodes.Keys + {ReviewSeq(d.nextSeq + 1)}
  {
  }

  /** From a to b exactly the listed ids were stored, one sequence number for each. */
  ghost predicate GrowsBy(a: Graph, b: Graph, ids: seq<NodeId>) {
    b.nextSeq == a.nextSeq + |ids| && b.nodes.Keys == a.nodes.Keys + SetOf(ids)
  }

  lemma GrowsByOneMore(a: Graph, m: Graph, b: Graph, ids: seq<NodeId>, id: NodeId)
    requires GrowsBy(a, m, ids) && b.nextSeq == m.nextSeq + 1 && b.nodes.Keys == m.nodes.Keys + {id}
    ensures GrowsBy(a, b, ids + [id])
  {
    assert SetOf(ids + [id]) == SetOf(ids) + {id};
  }

  lemma {:induction false} ReviewIds(d: Graph, pr: Principal, xs: seq<Decision>, ss: seq<seq<string>>)
    requires |xs| == |ss|
    ensures GrowsBy(d, ApplyDecisions(d, pr, xs, ss), Created(d.nextSeq, xs))
    decreases |xs|
  {
    if xs != [] {
      var n := |xs| - 1;
      var m := ApplyDecisions(d, pr, xs[..n], ss[..n]);
      assert GrowsBy(d, m, Created(d.nextSeq, xs[..n])) by { ReviewIds(d, pr, xs[..n], ss[..n]); }
      assert ApplyDecisions(d, pr, xs, ss) == ApplyDecision(m, pr, xs[n], ss[n]) by { ApplyOneMore(d, pr, xs, ss); }
      assert GrowsBy(d, ApplyDecision(m, pr, xs[n], ss[n]), Created(d.nextSeq, xs)) by {
        NextDecisionGrows(d, m, pr, xs[n], ss[n], Created(d.nextSeq, xs[..n]));
      }
    }
  }

  lemma NextDecisionGrows(d: Graph, m: Graph, pr: Principal, x: Decision, sources: seq<string>, ids: seq<NodeId>)
    requires GrowsBy(d, m, ids)
    ensures GrowsBy(d, ApplyDecision(m, pr, x, sources),
                    ids + (if x.action == Reject then [] else [ReviewSeq(d.nextSeq + |ids| + 1)]))
  {
    DecisionIds(m, pr, x, sources);
    if x.action == Reject {
      assert ids + [] == ids;
    } else {
      GrowsByOneMore(d, m, ApplyDecision(m, pr, x, sources), ids, ReviewSeq(m.nextSeq + 1));
    }
  }

  lemma {:induction false} ConsecutiveSize(start: nat, ids: seq<NodeId>)
    requires forall i | 0 <= i < |ids| :: ids[i] == ReviewSeq(start + 1 + i)
    ensures |SetOf(ids)| == |ids|
  {
    if ids != [] {
      var front, last := ids[..|ids| - 1], ids[|ids| - 1];
      ConsecutiveSize(start, front);
      assert ids == front + [last];
      assert last !in front;
      assert SetOf(ids) == SetOf(front) + {last};
    }
  }

  /** The graph holds exactly the nodes it had and those the receipt names, and grows by as many as these exactly when
      none of their ids was stored before. */
  lemma ReviewStoresReceipt(d: Graph, pr: Principal, xs: seq<Decision>, ss: seq<seq<string>>)
    requires |xs| == |ss|
    ensures var d', ids := ApplyDecisions(d, pr, xs, ss), Created(d.nextSeq, xs);
            && d'.nodes.Keys == d.nodes.Keys + SetOf(ids)
            && (|d'.nodes| == |d.nodes| + |ids| <==> forall id <- ids :: id !in d.nodes)
  {
    var d' := ApplyDecisions(d, pr, xs, ss);
    var ids, keys := Created(d.nextSeq, xs), d.nodes.Keys;
    ReviewIds(d, pr, xs, ss);
    CreatedAt(d.nextSeq, xs);
    ConsecutiveSize(d.nextSeq, ids);
    assert |d'.nodes| == |keys + SetOf(ids)| && |d.nodes| == |keys|;
    assert |keys + SetOf(ids)| + |keys * SetOf(ids)| == |keys| + |SetOf(ids)|;
    assert |keys * SetOf(ids)| == 0 <==> keys * SetOf(ids) == {};
    if forall id <- ids :: id !in d.nodes {
      assert keys * SetOf(ids) == {};
    } else {
      var id :| id in ids && id in d.nodes;
      assert id in keys * SetOf(ids);
    }
  }

  // ---------------------------------------------------------------------------------------
  // The review loops
  // ---------------------------------------------------------------------------------------

  method IndexBatch(batch: seq<Candidate>) returns (index: map<string, Candidate>)
    ensures index.Keys == IdsOf(batch)
    ensures forall id <- index :: index[id] == RecordOf(batch, id)
  {
    index := map[];
    for i := 0 to |batch|
      invariant index.Keys == IdsOf(batch[..i])
      invariant forall id <- index :: index[id] == RecordOf(batch[..i], id)
    {
      assert batch[..i + 1] == batch[..i] + [batch[i]];
      index := index[batch[i].id := batch[i]];
    }
    assert batch[..|batch|] == batch;
  }

  predicate Names(xs: seq<Decision>, i: int, id: string) {
    0 <= i < |xs| && xs[i].candidate == id
  }

  /** The first n decisions are about distinct candidates of the batch and valid, and ys is what they come to. */
  ghost predicate Checked(d: Graph, pr: Principal, batch: seq<Candidate>, xs: seq<Decision>, n: nat,
                          seen: set<string>, ys: seq<Decision>)
  {
    && n <= |xs| && |ys| == n
    && (forall k | 0 <= k < n :: xs[k].candidate in IdsOf(batch) && xs[k].candidate in seen)
    && (forall k | 0 <= k < n ::
          ys[k] == Normalized(RecordOf(batch, xs[k].candidate), xs[k]) && DecisionValid(d, pr, ys[k]))
    && (forall j, k | 0 <= j < k < n :: xs[j].candidate != xs[k].candidate)
    && (forall id <- seen :: exists k :: k < n && Names(xs, k, id))
  }

  lemma CheckedMore(d: Graph, pr: Principal, batch: seq<Candidate>, xs: seq<Decision>, n: nat, seen: set<string>,
                    ys: seq<Decision>)
    requires n < |xs| && Checked(d, pr, batch, xs, n, seen, ys)
    requires xs[n].candidate in IdsOf(batch) && xs[n].candidate !in seen
    requires DecisionValid(d, pr, Normalized(RecordOf(batch, xs[n].candidate), xs[n]))
    ensures Checked(d, pr, batch, xs, n + 1, seen + {xs[n].candidate},
                    ys + [Normalized(RecordOf(batch, xs[n].candidate), xs[n])])
  {
    var more := ys + [Normalized(RecordOf(batch, xs[n].candidate), xs[n])];
    assert Names(xs, n, xs[n].candidate);
    forall k | 0 <= k < n ensures more[k] == ys[k] && xs[k].candidate != xs[n].candidate {}
    forall id | id in seen ensures exists k :: k < n + 1 && Names(xs, k, id) {
      var k :| k < n && Names(xs, k, id);
    }
  }

  lemma CheckedAll(d: Graph, pr: Principal, batch: seq<Candidate>, xs: seq<Decision>, seen: set<string>,
                   ys: seq<Decision>)
    requires |xs| == |batch| && Checked(d, pr, batch, xs, |xs|, seen, ys)
    ensures Acceptable(d, pr, batch, xs) && ys == NormalizedAll(batch, xs)
  {
    assert Covers(batch, xs);
    assert ys == NormalizedAll(batch, xs);
  }

  lemma RepeatedDecision(d: Graph, pr: Principal, batch: seq<Candidate>, xs: seq<Decision>, n: nat,
                         seen: set<string>, ys: seq<Decision>)
    requires n < |xs| && Checked(d, pr, batch, xs, n, seen, ys) && xs[n].candidate in seen
    ensures !Acceptable(d, pr, batch, xs)
  {
    var k :| k < n && Names(xs, k, xs[n].candidate);
    assert xs[k].candidate == xs[n].candidate;
  }

  /** Checks every decision against the graph as it stands before any is applied. */
  method CheckDecisions(d: Graph, pr: Principal, batch: seq<Candidate>, index: map<string, Candidate>,
                        xs: seq<Decision>)
    returns (ok: bool, ys: seq<Decision>)
    requires |xs| == |batch| && index.Keys == IdsOf(batch) && forall id <- index :: index[id] == RecordOf(batch, id)
    ensures ok <==> Acceptable(d, pr, batch, xs)
    ensures ok ==> ys == NormalizedAll(batch, xs)
  {
    var seen: set<string> := {};
    ys := [];
    for i := 0 to |xs|
      invariant Checked(d, pr, batch, xs, i, seen, ys)
    {
      var x := xs[i];
      if x.candidate in seen {
        RepeatedDecision(d, pr, batch, xs, i, seen, ys);
        return false, [];
      }
      if x.candidate !in index {
        assert x in xs;
        return false, [];
      }
      var y := Normalized(index[x.candidate], x);
      if !DecisionValid(d, pr, y) {
        InvalidDecision(d, pr, batch, xs, i);
        return false, [];
      }
      CheckedMore(d, pr, batch, xs, i, seen, ys);
      seen, ys := seen + {x.candidate}, ys + [y];
    }
    CheckedAll(d, pr, batch, xs, seen, ys);
    return true, ys;
  }

  lemma InvalidDecision(d: Graph, pr: Principal, batch: seq<Candidate>, xs: seq<Decision>, i: nat)
    requires i < |xs| && xs[i].candidate in IdsOf(batch)
    requires !DecisionValid(d, pr, Normalized(RecordOf(batch, xs[i].candidate), xs[i]))
    ensures !Acceptable(d, pr, batch, xs)
  {
    if Covers(batch, xs) {
      var ys := NormalizedAll(batch, xs);
      assert ys[i] in ys;
    }
  }

  lemma ReceiptOneMore(nextSeq: nat, ys: seq<Decision>, i: nat)
    requires i < |ys|
    ensures var front, y := ys[..i], ys[i];
            && Candidates(ys[..i + 1]) == Candidates(front) + [y.candidate]
            && Rejected(ys[..i + 1]) == Rejected(front) + (if y.action == Reject then [y.candidate] else [])
            && Created(nextSeq, ys[..i + 1]) == Created(nextSeq, front)
               + (if y.action == Reject then [] else [ReviewSeq(nextSeq + |Created(nextSeq, front)| + 1)])
  {
    assert ys[..i + 1][..i] == ys[..i];
  }

  lemma PrefixOneMore(d: Graph, pr: Principal, ys: seq<Decision>, ss: seq<seq<string>>, i: nat)
    requires i < |ys| == |ss|
    ensures ApplyDecisions(d, pr, ys[..i + 1], ss[..i + 1])
         == ApplyDecision(ApplyDecisions(d, pr, ys[..i], ss[..i]), pr, ys[i], ss[i])
    ensures ApplyDecisions(d, pr, ys[..i], ss[..i]).nextSeq == d.nextSeq + |Created(d.nextSeq, ys[..i])|
  {
    assert ys[..i + 1][..i] == ys[..i] && ss[..i + 1][..i] == ss[..i];
    ReviewIds(d, pr, ys[..i], ss[..i]);
    ApplyOneMore(d, pr, ys[..i + 1], ss[..i + 1]);
  }

  /** The first n decisions are applied and listed. */
  ghost predicate AppliedSoFar(d: Graph, pr: Principal, ys: seq<Decision>, ss: seq<seq<string>>, n: nat, w: Graph,
                               r: Receipt)
  {
    && n <= |ys| == |ss| && w == ApplyDecisions(d, pr, ys[..n], ss[..n]) && r == ReceiptFor(d, pr.task, ys[..n])
  }

  /** Lists one more decision. */
  function ListDecision(r: Receipt, y: Decision, nextSeq: nat): Receipt {
    r.(reviewed := r.reviewed + [y.candidate],
       rejected := if y.action == Reject then r.rejected + [y.candidate] else r.rejected,
       nodes := if y.action == Reject then r.nodes else r.nodes + [ReviewSeq(nextSeq + 1)])
  }

  lemma ListedMore(d: Graph, task: TaskId, ys: seq<Decision>, n: nat)
    requires n < |ys|
    ensures ReceiptFor(d, task, ys[..n + 1])
         == ListDecision(ReceiptFor(d, task, ys[..n]), ys[n], d.nextSeq + |Created(d.nextSeq, ys[..n])|)
  {
    ReceiptOneMore(d.nextSeq, ys, n);
    var a := ReceiptFor(d, task, ys[..n + 1]);
    var b := ListDecision(ReceiptFor(d, task, ys[..n]), ys[n], d.nextSeq + |Created(d.nextSeq, ys[..n])|);
    assert a.task == b.task && a.reviewed == b.reviewed;
    assert a.rejected == b.rejected;
    assert a.nodes == b.nodes;
  }

  lemma AppliedMore(d: Graph, pr: Principal, ys: seq<Decision>, ss: seq<seq<string>>, n: nat, w: Graph, r: Receipt)
    requires AppliedSoFar(d, pr, ys, ss, n, w, r) && n < |ys|
    ensures AppliedSoFar(d, pr, ys, ss, n + 1, ApplyDecision(w, pr, ys[n], ss[n]), ListDecision(r, ys[n], w.nextSeq))
  {
    assert ApplyDecisions(d, pr, ys[..n + 1], ss[..n + 1]) == ApplyDecision(w, pr, ys[n], ss[n]) by {
      PrefixOneMore(d, pr, ys, ss, n);
    }
    assert ReceiptFor(d, pr.task, ys[..n + 1]) == ListDecision(r, ys[n], w.nextSeq) by {
      assert w.nextSeq == d.nextSeq + |Created(d.nextSeq, ys[..n])| by { ReviewIds(d, pr, ys[..n], ss[..n]); }
      ListedMore(d, pr.task, ys, n);
    }
  }

  method ApplyAll(d: Graph, pr: Principal, index: map<string, Candidate>, ys: seq<Decision>, ghost ss: seq<seq<string>>)
    returns (working: Graph, receipt: Receipt)
    requires |ys| == |ss|
    requires forall i | 0 <= i < |ys| :: ys[i].candidate in index && index[ys[i].candidate].sources == ss[i]
    ensures working == ApplyDecisions(d, pr, ys, ss) && receipt == ReceiptFor(d, pr.task, ys)
  {
    working, receipt := d, Receipt(pr.task, [], [], []);
    for i := 0 to |ys|
      invariant AppliedSoFar(d, pr, ys, ss, i, working, receipt)
    {
      AppliedMore(d, pr, ys, ss, i, working, receipt);
      receipt := ListDecision(receipt, ys[i], working.nextSeq);
      working := ApplyDecision(working, pr, ys[i], index[ys[i].candidate].sources);
    }
    assert ys[..|ys|] == ys && ss[..|ss|] == ss;
  }

  /** Reviews a frozen batch: refused as a whole, or settled as a whole. */
  method ReviewFrozenBatch(d: Graph, pr: Principal, batch: seq<Candidate>, xs: seq<Decision>)
    returns (r: Outcome<(Graph, Receipt)>)
    ensures r.Done? <==> Acceptable(d, pr, batch, xs)
    ensures r.Done? ==> r.value == Settle(d, pr, batch, xs)
  {
    if |xs| != |batch| { return Refused; }
    var index := IndexBatch(batch);
    var ok, ys := CheckDecisions(d, pr, batch, index, xs);
    if !ok { return Refused; }
    forall i | 0 <= i < |ys| ensures ys[i].candidate in index { assert xs[i] in xs; }
    var working, receipt := ApplyAll(d, pr, index, ys, SourcesOf(batch, xs));
    r := Done((working.(revision := working.revision + 1), receipt));
  }
}
