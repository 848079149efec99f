/** The graph runtime: one reconcile pass over the coordination store, in the runtime's own loops. */
module CoordinationRuntime {
  import opened Common
  import opened Coordination
  import opened CoordinationRuns
  import opened CoordinationFold
  import opened CoordinationPass
  import opened CoordinationReady
  import opened CoordinationStore

  datatype Capacity = Capacity(desired: int, healthy: int, active: int) {
    function Limit(): int {
      if healthy < desired then healthy else desired
    }

    /** Free slots under both limits, never negative. */
    function Available(): (n: nat)
      ensures active + n == if active < Limit() then Limit() else active
    {
      if Limit() - active < 0 then 0 else Limit() - active
    }
  }

  /** The fixed selector: as many candidates as there are slots, in order. */
  function SelectRunnable(candidates: seq<Endpoint>, capacity: Capacity): (selected: seq<Endpoint>)
    ensures selected <= candidates && |selected| <= capacity.Available()
    ensures |selected| < capacity.Available() ==> selected == candidates
  {
    if |candidates| <= capacity.Available() then candidates else candidates[..capacity.Available()]
  }

  predicate DistinctRefs(es: seq<Endpoint>) {
    forall i, j :: 0 <= i < j < |es| ==> es[i].ref != es[j].ref
  }

  predicate DistinctIds(cs: seq<PhaseCommand>) {
    forall i, j :: 0 <= i < j < |cs| ==> cs[i].id != cs[j].id
  }

  // ---------------------------------------------------------------------------------------
  // The order of candidates
  // ---------------------------------------------------------------------------------------

  function PhaseOrder(n: EndpointName): int {
    match n case Plan => 0 case Execute => 1 case Verify => 2
  }

  /** Later phases come first, and within a phase tasks in the order of their ids. */
  predicate Precedes(a: EndpointRef, b: EndpointRef) {
    if PhaseOrder(a.endpoint) == PhaseOrder(b.endpoint) then LexLess(a.task, b.task)
    else PhaseOrder(a.endpoint) > PhaseOrder(b.endpoint)
  }

  /** So verification goes before execution and execution before planning, whatever the tasks. */
  lemma LaterPhasesFirst(a: EndpointRef, b: EndpointRef)
    ensures Precedes(a, b) <==>
            match a.endpoint
            case Verify => b.endpoint != Verify || LexLess(a.task, b.task)
            case Execute => b.endpoint == Plan || (b.endpoint == Execute && LexLess(a.task, b.task))
            case Plan => b.endpoint == Plan && LexLess(a.task, b.task)
  {
  }

  predicate InOrder(es: seq<Endpoint>) {
    forall i, j :: 0 <= i < j < |es| ==> Precedes(es[i].ref, es[j].ref)
  }

  lemma PrecedesTotal(a: EndpointRef, b: EndpointRef)
    requires a != b && !Precedes(a, b)
    ensures Precedes(b, a)
  {
    if a.endpoint == b.endpoint && !LexLess(b.task, a.task) { Total(a.task, b.task); }
  }

  lemma PrecedesTransitive(a: EndpointRef, b: EndpointRef, c: EndpointRef)
    requires Precedes(a, b) && Precedes(b, c)
    ensures Precedes(a, c)
  {
    if a.endpoint == b.endpoint == c.endpoint { Transitive(a.task, b.task, c.task); }
  }

  lemma OrderedAreDistinct(es: seq<Endpoint>)
    requires InOrder(es)
    ensures DistinctRefs(es)
  {
    forall i, j | 0 <= i < j < |es| ensures es[i].ref != es[j].ref { NotBelowItself(es[i].ref.task); }
  }

  lemma InsertedInOrder(es: seq<Endpoint>, k: nat, e: Endpoint)
    requires InOrder(es) && k <= |es|
    requires forall i | 0 <= i < k :: Precedes(es[i].ref, e.ref)
    requires forall j | k <= j < |es| :: Precedes(e.ref, es[j].ref)
    ensures InOrder(es[..k] + [e] + es[k..])
    ensures forall x :: x in es[..k] + [e] + es[k..] <==> x in es || x == e
  {
    var out := es[..k] + [e] + es[k..];
    assert es == es[..k] + es[k..];
    forall i, j | 0 <= i < j < |out| ensures Precedes(out[i].ref, out[j].ref) {
      assert out[i] == if i < k then es[i] else if i == k then e else es[i - 1];
      assert out[j] == if j < k then es[j] else if j == k then e else es[j - 1];
    }
  }

  /** Puts a new endpoint at its place. */
  method Insert(es: seq<Endpoint>, e: Endpoint) returns (out: seq<Endpoint>)
    requires InOrder(es) && forall x <- es :: x.ref != e.ref
    ensures InOrder(out) && forall x :: x in out <==> x in es || x == e
  {
    var k := 0;
    while k < |es| && Precedes(es[k].ref, e.ref)
      invariant k <= |es| && forall i | 0 <= i < k :: Precedes(es[i].ref, e.ref)
    {
      k := k + 1;
    }
    forall j | k <= j < |es| ensures Precedes(e.ref, es[j].ref) {
      PrecedesTotal(es[k].ref, e.ref);
      if k < j { PrecedesTransitive(e.ref, es[k].ref, es[j].ref); }
    }
    InsertedInOrder(es, k, e);
    out := es[..k] + [e] + es[k..];
  }

  /** The candidates whose ref was not selected, in their order. */
  function Remaining(candidates: seq<Endpoint>, selected: set<EndpointRef>): seq<Endpoint> {
    if candidates == [] then []
    else
      var n := |candidates| - 1;
      Remaining(candidates[..n], selected) + (if candidates[n].ref in selected then [] else [candidates[n]])
  }

  lemma RemainingMore(front: seq<Endpoint>, rest: seq<Endpoint>, last: Endpoint, selected: set<EndpointRef>)
    requires InOrder(front + [last]) && InOrder(rest)
    requires forall e :: e in rest <==> e in front && e.ref !in selected
    ensures var rest' := rest + (if last.ref in selected then [] else [last]);
            InOrder(rest') && forall e :: e in rest' <==> e in front + [last] && e.ref !in selected
  {
    forall i | 0 <= i < |rest| ensures Precedes(rest[i].ref, last.ref) {
      assert rest[i] in front;
      var j :| 0 <= j < |front| && front[j] == rest[i];
      assert (front + [last])[j] == rest[i] && (front + [last])[|front|] == last;
    }
  }

  lemma {:induction false} RemainingIs(candidates: seq<Endpoint>, selected: set<EndpointRef>)
    requires InOrder(candidates)
    ensures var rest := Remaining(candidates, selected);
            InOrder(rest) && forall e :: e in rest <==> e in candidates && e.ref !in selected
  {
    if candidates != [] {
      var n := |candidates| - 1;
      assert candidates == candidates[..n] + [candidates[n]];
      RemainingIs(candidates[..n], selected);
      RemainingMore(candidates[..n], Remaining(candidates[..n], selected), candidates[n], selected);
    }
  }

  /** Fewer are left once one was selected. */
  lemma {:induction false} RemainingShrinks(candidates: seq<Endpoint>, selected: set<EndpointRef>)
    ensures |Remaining(candidates, selected)| <= |candidates|
    ensures candidates != [] && candidates[0].ref in selected ==> |Remaining(candidates, selected)| < |candidates|
  {
    if candidates != [] { RemainingShrinks(candidates[..|candidates| - 1], selected); }
  }

  method RemoveSelectedCandidates(candidates: seq<Endpoint>, selected: set<EndpointRef>) returns (rest: seq<Endpoint>)
    ensures rest == Remaining(candidates, selected)
  {
    rest := [];
    var i := 0;
    while i < |candidates|
      invariant 0 <= i <= |candidates| && rest == Remaining(candidates[..i], selected)
    {
      assert candidates[..i + 1][..i] == candidates[..i];
      if candidates[i].ref !in selected { rest := rest + [candidates[i]]; }
      i := i + 1;
    }
    assert candidates[..|candidates|] == candidates;
  }

  // ---------------------------------------------------------------------------------------
  // One delivery for each command
  // ---------------------------------------------------------------------------------------

  function IdsOf(cs: seq<PhaseCommand>): set<CommandId> {
    set c <- cs :: c.id
  }

  lemma IdsMore(cs: seq<PhaseCommand>, c: PhaseCommand)
    ensures IdsOf(cs + [c]) == IdsOf(cs) + {c.id}
  {
    forall id | id in IdsOf(cs) ensures id in IdsOf(cs + [c]) {
      var d :| d in cs && d.id == id;
      assert d in cs + [c];
    }
    assert c in cs + [c];
  }

  /** The first command of each id, in order. */
  function FirstOfEach(commands: seq<PhaseCommand>): seq<PhaseCommand> {
    if commands == [] then []
    else
      var n := |commands| - 1;
      FirstOfEach(commands[..n]) + (if commands[n].id in IdsOf(commands[..n]) then [] else [commands[n]])
  }

  lemma FirstMore(front: seq<PhaseCommand>, out: seq<PhaseCommand>, c: PhaseCommand)
    requires DistinctIds(out) && (forall x <- out :: x in front) && IdsOf(out) == IdsOf(front)
    ensures var out' := out + (if c.id in IdsOf(front) then [] else [c]);
            DistinctIds(out') && (forall x <- out' :: x in front + [c]) && IdsOf(out') == IdsOf(front + [c])
  {
    IdsMore(front, c);
    IdsMore(out, c);
    forall i | 0 <= i < |out| ensures out[i].id in IdsOf(out) { assert out[i] in out; }
    assert out + [] == out;
  }

  /** It has each id once and no other command. */
  lemma {:induction false} FirstOfEachIs(commands: seq<PhaseCommand>)
    ensures var out := FirstOfEach(commands);
            DistinctIds(out) && (forall c <- out :: c in commands) && IdsOf(out) == IdsOf(commands)
  {
    if commands != [] {
      var n := |commands| - 1;
      assert commands == commands[..n] + [commands[n]];
      FirstOfEachIs(commands[..n]);
      FirstMore(commands[..n], FirstOfEach(commands[..n]), commands[n]);
    }
  }

  method UniqueByCommandId(commands: seq<PhaseCommand>) returns (out: seq<PhaseCommand>)
    ensures out == FirstOfEach(commands)
    ensures DistinctIds(out) && (forall c <- out :: c in commands)
    ensures forall c <- commands :: exists d <- out :: d.id == c.id
  {
    out := [];
    var seen: set<CommandId> := {};
    var i := 0;
    while i < |commands|
      invariant 0 <= i <= |commands| && out == FirstOfEach(commands[..i]) && seen == IdsOf(commands[..i])
    {
      var c := commands[i];
      assert commands[..i + 1] == commands[..i] + [c] && commands[..i + 1][..i] == commands[..i];
      IdsMore(commands[..i], c);
      if c.id !in seen {
        seen := seen + {c.id};
        out := out + [c];
      }
      i := i + 1;
    }
    assert commands[..|commands|] == commands;
    FirstOfEachIs(commands);
    forall c | c in commands ensures exists d <- out :: d.id == c.id { assert c.id in IdsOf(commands); }
  }

  lemma MoveOne<T>(all: set<T>, done: set<T>, todo: set<T>, x: T)
    requires done + todo == all && done !! todo && x in todo
    ensures (done + {x}) + (todo - {x}) == all && (done + {x}) !! (todo - {x})
    ensures |todo - {x}| < |todo|
  {
  }

  /** The first n events are folded, by the steps of the trace. */
  ghost predicate FoldedTo(p: Project, s: Project, events: seq<Observation>, n: nat, trace: seq<Step>) {
    && n <= |events| && Inv(s) && Queue(s, events[n..])
    && IsRunOf(p, trace) && After(p, trace) == s
    && FoldAll(p, events) == FoldAll(s, events[n..])
  }

  lemma FoldMore(p: Project, s: Project, events: seq<Observation>, n: nat, trace: seq<Step>)
    requires n < |events| && FoldedTo(p, s, events, n, trace)
    ensures match FoldOne(s, events[n])
            case Ok(q) => FoldedTo(p, q, events, n + 1, trace + [DoFold(events[n])])
            case Err(e) => e != NoError && FoldAll(p, events) == Folding(s, e)
  {
    var rest := events[n..];
    assert rest[0] == events[n] && rest[1..] == events[n + 1..] && events[n] in rest;
    FoldOneIff(s, events[n]);
    if FoldOne(s, events[n]).Ok? {
      RunSnoc(p, trace, DoFold(events[n]));
      QueueTail(s, rest);
    }
  }

  /** The commands in done have been looked at, by the steps of the trace. */
  ghost predicate RepairedSoFar(p: Project, q: Project, s: Project, done: set<CommandId>, trace: seq<Step>) {
    s == RepairCommands(p, q, done) && IsRunOf(q, trace) && After(q, trace) == s
  }

  lemma OneStep(p: Project, s: Step)
    requires Allowed(p, s)
    ensures IsRunOf(p, [s]) && After(p, [s]) == Apply(p, s)
  {
    RunSnoc(p, [], s);
    assert [] + [s] == [s];
  }

  /** Extends a run by one allowed step. */
  lemma RunSnoc(p: Project, trace: seq<Step>, s: Step)
    requires IsRunOf(p, trace) && Allowed(After(p, trace), s)
    ensures IsRunOf(p, trace + [s]) && After(p, trace + [s]) == Apply(After(p, trace), s)
  {
    var q := After(p, trace);
    assert [s][1..] == [];
    assert IsRunOf(Apply(q, s), []);
    RunConcat(p, trace, [s]);
    assert After(q, [s]) == After(Apply(q, s), []);
  }

  class GraphRuntime {
    const store: MemoryStore

    constructor (store: MemoryStore)
      ensures this.store == store
    {
      this.store := store;
    }

    /** Folds one event into the command and the lease it is about. */
    method FoldEvent(o: Observation) returns (code: ErrorCode)
      requires FoldOne(store.State(), o).Err? ==> FoldOne(store.State(), o).code != NoError
      modifies store
      ensures match FoldOne(old(store.State()), o)
              case Ok(q) => code == NoError && store.State() == q
              case Err(e) => code == e && code != NoError && store.State() == old(store.State())
    {
      match o.kind {
        case Started => code := store.MarkObserved(o);
        case Output => code := store.CompleteCommandAndReleaseLease(o);
        case Failed => code := store.CompleteCommandAndReleaseLease(o);
        case Stopped =>
          if o.checkpoint == "" && !o.nonResumable { return IncompleteStopEvidence; }
          code := store.CompleteCommandAndReleaseLease(o);
        case DispatchRejected => code := NoError;
      }
    }

    method FoldObservations(view: Project, now: int) returns (next: Project, code: ErrorCode, ghost trace: seq<Step>)
      requires Inv(store.State()) && view == ViewAt(store.State(), now)
      modifies store
      ensures var f := FoldAll(old(store.State()), Unfolded(old(store.observations)));
              store.State() == f.state && code == f.error
      ensures code == NoError ==> next == ViewAt(store.State(), now)
      ensures IsRunOf(old(store.State()), trace) && After(old(store.State()), trace) == store.State()
    {
      ghost var p := store.State();
      var events := Unfolded(view.observations);
      UnfoldedIsQueue(p.observations);
      trace := [];
      next := view;
      var i := 0;
      while i < |events|
        invariant 0 <= i <= |events|
        invariant FoldedTo(p, store.State(), events, i, trace)
      {
        ghost var s := store.State();
        FoldMore(p, s, events, i, trace);
        code := FoldEvent(events[i]);
        if code != NoError {
          return view, code, trace;
        }
        trace := trace + [DoFold(events[i])];
        i := i + 1;
      }
      assert events[i..] == [];
      next := store.LoadRuntimeView(now);
      code := NoError;
    }

    method RepairDecisionPairs(view: Project, now: int) returns (next: Project, ghost trace: seq<Step>)
      requires Inv(store.State()) && view == ViewAt(store.State(), now)
      modifies store
      ensures store.State() == Repair(old(store.State())) && Inv(store.State())
      ensures next == ViewAt(store.State(), now)
      ensures IsRunOf(old(store.State()), trace) && After(old(store.State()), trace) == store.State()
    {
      ghost var p := store.State();
      trace := RepairLeasePairs(view, now);
      ghost var more := RepairCommandPairs(p, view, now);
      RunConcat(p, trace, more);
      trace := trace + more;
      RunKeepsInv(p, trace);
      next := store.LoadRuntimeView(now);
    }

    method RepairLeasePairs(view: Project, now: int) returns (ghost trace: seq<Step>)
      requires Inv(store.State()) && view == ViewAt(store.State(), now)
      modifies store
      ensures store.State() == RepairLeases(old(store.State()), old(store.latest), ActiveLeases(old(store.State())))
      ensures IsRunOf(old(store.State()), trace) && After(old(store.State()), trace) == store.State()
    {
      ghost var p := store.State();
      ghost var done: set<LeaseId> := {};
      trace := [];
      RepairNothing(p, p.latest);
      var todo := ActiveLeases(view);
      ghost var all := todo;
      assert all == ActiveLeases(p);
      while todo != {}
        invariant done + todo == all && done !! todo
        invariant store.State() == RepairLeases(p, p.latest, done)
        invariant IsRunOf(p, trace) && After(p, trace) == store.State()
        decreases |todo|
      {
        var l :| l in todo;
        MoveOne(all, done, todo, l);
        RunKeepsInv(p, trace);
        ghost var more := RepairLeasePair(p, view, now, done, l);
        RunConcat(p, trace, more);
        trace := trace + more;
        done := done + {l};
        todo := todo - {l};
      }
      assert done == all;
    }

    method RepairLeasePair(ghost p: Project, view: Project, now: int, ghost done: set<LeaseId>, l: LeaseId)
      returns (ghost steps: seq<Step>)
      requires Inv(p) && view == ViewAt(p, now) && l in p.leases && p.leases[l].active && l !in done
      requires store.State() == RepairLeases(p, p.latest, done) && Inv(store.State())
      modifies store
      ensures store.State() == RepairLeases(p, p.latest, done + {l})
      ensures IsRunOf(old(store.State()), steps) && After(old(store.State()), steps) == store.State()
    {
      ghost var s := store.State();
      steps := [];
      var lease := view.leases[l];
      ViewSameQueries(p, now, l);
      RepairOneMore(p, p.latest, done, l);
      if HasCommandForLease(view, l) {
      } else if HasRemoteObservation(view, lease) {
        OneStep(s, DoEnsureStop(view.latest, lease));
        steps := [DoEnsureStop(view.latest, lease)];
        var _, _ := store.GetOrCreateStopCommand(view.latest, lease);
      } else {
        OneStep(s, DoReleaseOrphan(lease.ref));
        steps := [DoReleaseOrphan(lease.ref)];
        var _ := store.ReleaseOrphanLease(lease.ref);
      }
    }

    method RepairCommandPairs(ghost p: Project, view: Project, now: int) returns (ghost trace: seq<Step>)
      requires view == ViewAt(p, now) && p.commands.Keys <= store.commands.Keys
      modifies store
      ensures store.State() == RepairCommands(p, old(store.State()), p.commands.Keys)
      ensures IsRunOf(old(store.State()), trace) && After(old(store.State()), trace) == store.State()
    {
      ghost var q := store.State();
      ghost var all := p.commands.Keys;
      trace := [];
      RepairNoCommands(p, q);
      var todo := view.commands.Keys;
      assert all - todo == {};
      while todo != {}
        invariant todo <= all && RepairedSoFar(p, q, store.State(), all - todo, trace)
        decreases |todo|
      {
        var id :| id in todo;
        trace := RepairCommandPair(p, q, view, now, todo, id, trace);
        todo := todo - {id};
      }
      assert all - todo == all;
    }

    method RepairCommandPair(ghost p: Project, ghost q: Project, view: Project, now: int, ghost todo: set<CommandId>,
                             id: CommandId, ghost trace: seq<Step>)
      returns (ghost trace': seq<Step>)
      requires view == ViewAt(p, now) && id in todo && todo <= p.commands.Keys && id in q.commands
      requires RepairedSoFar(p, q, store.State(), p.commands.Keys - todo, trace)
      modifies store
      ensures RepairedSoFar(p, q, store.State(), p.commands.Keys - (todo - {id}), trace')
    {
      var r := view.commands[id];
      trace' := trace;
      ghost var done := p.commands.Keys - todo;
      QuarantineOneMore(p, q, done, id);
      assert p.commands.Keys - (todo - {id}) == done + {id};
      if r.command.action == Stop || r.completed != NoEvent || r.quarantined || r.notExecutable {
        return;
      }
      if !HasMatchingActiveLease(view, r.command) {
        RunSnoc(q, trace, DoQuarantine(id));
        trace' := trace + [DoQuarantine(id)];
        store.QuarantineCommand(id);
      }
    }

    /** Ensures a stop command for every active lease that must stop and lists the deliverable ones. */
    method IssueStopCommands(view: Project, now: int)
      returns (stops: seq<PhaseCommand>, suppressed: set<LeaseId>, ghost trace: seq<Step>)
      requires Inv(store.State()) && view == ViewAt(store.State(), now)
      modifies store
      ensures store.State() == IssueStops(old(store.State()), view, ActiveLeases(view)) && Inv(store.State())
      ensures StopPlan(store.State(), view, stops, suppressed)
      ensures IsRunOf(old(store.State()), trace) && After(old(store.State()), trace) == store.State()
    {
      ghost var p := store.State();
      ghost var done: set<LeaseId> := {};
      stops, suppressed, trace := [], {}, [];
      IssueNothing(p, view);
      var todo := ActiveLeases(view);
      ghost var all := todo;
      while todo != {}
        invariant done + todo == all && done !! todo
        invariant store.State() == IssueStops(p, view, done) && Inv(store.State())
        invariant forall l :: l in suppressed <==> l in done && ToStop(view, l)
        invariant forall c <- stops :: IsDeliverableStop(store.State(), view, c)
        invariant forall l <- done :: ToStop(view, l) ==> StopListed(store.State(), stops, l)
        invariant IsRunOf(p, trace) && After(p, trace) == store.State()
        decreases |todo|
      {
        var l :| l in todo;
        ghost var s := store.State();
        MoveOne(all, done, todo, l);
        var must, cs, more := IssueStopFor(p, view, now, done, l);
        StopsKept(s, store.State(), view, done, stops, cs);
        RunConcat(p, trace, more);
        trace := trace + more;
        stops := stops + cs;
        if must {
          suppressed := suppressed + {LeaseId(view.leases[l].endpoint, view.leases[l].generation)};
        }
        done := done + {l};
        todo := todo - {l};
      }
      assert done == all;
    }

    method IssueStopFor(ghost p: Project, view: Project, now: int, ghost done: set<LeaseId>, l: LeaseId)
      returns (must: bool, cs: seq<PhaseCommand>, ghost steps: seq<Step>)
      requires Inv(p) && view == ViewAt(p, now) && l in ActiveLeases(view) && l !in done
      requires store.State() == IssueStops(p, view, done) && Inv(store.State())
      modifies store
      ensures store.State() == IssueStops(p, view, done + {l}) && Inv(store.State())
      ensures l == LeaseId(view.leases[l].endpoint, view.leases[l].generation)
      ensures must == ToStop(view, l)
      ensures must ==> StopListed(store.State(), cs, l)
      ensures forall c <- cs :: IsDeliverableStop(store.State(), view, c)
      ensures KeepsRecords(old(store.State()), store.State())
      ensures IsRunOf(old(store.State()), steps) && After(old(store.State()), steps) == store.State()
    {
      ghost var s := store.State();
      var lease := view.leases[l];
      ViewLease(p, now, l);
      IssueOneMore(p, view, done, l);
      must, cs, steps := MustStop(view, lease), [], [];
      if must {
        StopPhase(s, view.latest, lease);
        steps := [DoEnsureStop(view.latest, lease)];
        var c, deliverable := store.GetOrCreateStopCommand(view.latest, lease);
        if deliverable {
          cs := [c];
        }
      }
    }

    /** Commands to deliver again, leaving out runs of a suppressed endpoint generation. */
    method PendingCommands(view: Project, suppressed: set<LeaseId>) returns (out: seq<PhaseCommand>)
      requires Inv(view)
      ensures PendingPlan(view, out, suppressed)
    {
      out := [];
      var todo := view.commands.Keys;
      while todo != {}
        invariant todo <= view.commands.Keys
        invariant forall c <- out ::
          c.id in view.commands && view.commands[c.id].command == c && IsPending(view.commands[c.id])
          && !Suppressed(c, suppressed)
        invariant forall id <- view.commands.Keys - todo ::
          IsPending(view.commands[id]) && !Suppressed(view.commands[id].command, suppressed) ==>
            view.commands[id].command in out
        decreases |todo|
      {
        var id :| id in todo;
        var r := view.commands[id];
        assert CommandOk(view, id);
        var suppress :=
          r.command.action != Stop && LeaseId(r.command.endpoint, r.command.generation) in suppressed;
        if IsPending(r) && !suppress {
          out := out + [r.command];
        }
        todo := todo - {id};
      }
    }

    /** The runnable endpoints of the view, each once: later phases first, and within a phase by task. */
    method GraphRunnable(view: Project) returns (candidates: seq<Endpoint>)
      requires view.graph.WellKeyed()
      ensures InOrder(candidates)
      ensures forall e :: e in candidates <==> RunnableHere(view, e)
      ensures Inv(view) ==> forall r <- view.graph.endpoints ::
                view.graph.endpoints[r] in candidates <==>
                Ready(view.graph, r) && Unoccupied(view, r, view.graph.endpoints[r].generation)
    {
      candidates := [];
      var todo := view.graph.endpoints.Keys;
      while todo != {}
        invariant todo <= view.graph.endpoints.Keys
        invariant InOrder(candidates)
        invariant forall e :: e in candidates <==>
          && e.ref in view.graph.endpoints.Keys - todo && view.graph.endpoints[e.ref] == e && IsRunnable(view, e)
        decreases |todo|
      {
        var r :| r in todo;
        if IsRunnable(view, view.graph.endpoints[r]) {
          candidates := Insert(candidates, view.graph.endpoints[r]);
        }
        todo := todo - {r};
      }
      forall r | Inv(view) && r in view.graph.endpoints
        ensures view.graph.endpoints[r] in candidates <==>
                Ready(view.graph, r) && Unoccupied(view, r, view.graph.endpoints[r].generation)
      {
        RunnableIff(view, r);
      }
    }

    /** Claims one endpoint, as a start or, from a checkpoint, as a resume. */
    method ClaimRun(view: Project, e: Endpoint, now: int)
      returns (command: PhaseCommand, claimed: bool, code: ErrorCode, ghost action: Action)
      modifies store
      ensures code == StaleCheckpoint ==> !claimed && store.State() == old(store.State())
      ensures code != StaleCheckpoint ==>
                && action == ActionFor(view, e.binding)
                && store.State() == ClaimLease(old(store.State()), view.latest, e, action, view.latest, now)
                && claimed == ClaimSucceeds(old(store.State()), view.latest, e)
                && (claimed ==> command == RunCommandFor(e, action, view.latest))
      ensures e.binding != "" ==>
                (code == StaleCheckpoint <==> Stale(view, e.binding))
      ensures code == NoError || code == StaleCheckpoint || code == CommandConflict
      ensures code == CommandConflict ==>
                && RunCommand(e.ref, e.generation) in store.commands
                && !IsRun(store.commands[RunCommand(e.ref, e.generation)].command.action)
    {
      var binding := if e.binding in view.bindings then view.bindings[e.binding] else BindingInfo("", false);
      var act := Start;
      command := PhaseCommand(NoCommand, e.ref, 0, "", NoLease, Start, 0);
      claimed, action := false, Start;
      if binding.nonResumable {
        return command, false, StaleCheckpoint, Start;
      }
      if binding.checkpoint != "" {
        if !(e.binding != "" && binding.checkpoint != "" && !binding.nonResumable) {
          return command, false, StaleCheckpoint, Start;
        }
        act := Resume;
      }
      action := act;
      command, claimed, code := store.ClaimLeaseAndAppendCommand(view.latest, e, act, view.latest, now);
    }

    /** One selected endpoint: claimed when it was claimable at the start of the phase, noted when its binding
        cannot be started again. */
    method ClaimSelected(ghost p: Project, ghost cs: set<CommandId>, claimed: seq<PhaseCommand>, view: Project,
                         e: Endpoint, now: int)
      returns (claimed': seq<PhaseCommand>, ghost cs': set<CommandId>, ghost steps: seq<Step>)
      requires Inv(p) && Inv(store.State()) && Grew(p, store.State(), cs) && SameGraph(p, view)
      requires ClaimsListed(p, store.State(), cs, claimed)
      requires RunnableHere(p, e) && RunCommand(e.ref, e.generation) !in cs
      modifies store
      ensures Inv(store.State()) && Grew(p, store.State(), cs')
      ensures ClaimsListed(p, store.State(), cs', claimed')
      ensures claimed' == if Claimable(p, e) then claimed + [ClaimOf(p, e)] else claimed
      ensures Stale(p, e.binding) ==> Noted(store.State(), e)
      ensures cs' == if Claimable(p, e) then cs + {RunCommand(e.ref, e.generation)} else cs
      ensures old(store.observations) <= store.observations
      ensures IsRunOf(old(store.State()), steps) && After(old(store.State()), steps) == store.State()
    {
      ghost var s := store.State();
      claimed', cs', steps := claimed, cs, [];
      var c, ok, code, action := ClaimRun(view, e, now);
      if code == StaleCheckpoint {
        assert !Claimable(p, e);
        steps := NoteStale(p, cs, claimed, e);
      } else {
        ClaimListed(p, s, cs, claimed, e, action, now);
        // A conflict would be an error of the pass; a stored run command always starts or resumes.
        NoConflict(store.State(), e);
        assert code != CommandConflict && ok == Claimable(p, e);
        steps := [DoClaim(view.latest, e, action, view.latest, now)];
        if ok {
          cs' := cs + {RunCommand(e.ref, e.generation)};
          claimed' := claimed + [c];
        }
      }
    }

    /** Notes that the endpoint's binding cannot be started again. */
    method NoteStale(ghost p: Project, ghost cs: set<CommandId>, ghost claimed: seq<PhaseCommand>, e: Endpoint)
      returns (ghost steps: seq<Step>)
      requires Inv(store.State()) && Grew(p, store.State(), cs) && ClaimsListed(p, store.State(), cs, claimed)
      modifies store
      ensures Inv(store.State()) && Grew(p, store.State(), cs) && ClaimsListed(p, store.State(), cs, claimed)
      ensures Noted(store.State(), e) && old(store.observations) <= store.observations
      ensures IsRunOf(old(store.State()), steps) && After(old(store.State()), steps) == store.State()
    {
      ghost var s := store.State();
      NotePhase(p, s, cs, e);
      store.RecordEndpointDispatchRejection(e.ref, e.generation, e.binding, StaleCheckpoint);
      steps := [DoRejectEndpoint(e.ref, e.generation, e.binding, StaleCheckpoint)];
      ClaimsListedMore(p, s, store.State(), cs, claimed, [], cs);
      assert claimed + [] == claimed;
    }

    /** Tries the next endpoint of a selected batch. */
    method ClaimNext(ghost p: Project, ghost s: Project, view: Project, selected: seq<Endpoint>, i: nat, now: int,
                     claimed: seq<PhaseCommand>, ghost cs: set<CommandId>, ghost trace: seq<Step>)
      returns (claimed': seq<PhaseCommand>, ghost cs': set<CommandId>, ghost trace': seq<Step>)
      requires Inv(p) && SameGraph(p, view) && DistinctRefs(selected) && i < |selected| && RunnableHere(p, selected[i])
      requires BatchState(p, s, store.State(), selected, i, claimed, cs, trace)
      modifies store
      ensures BatchState(p, s, store.State(), selected, i + 1, claimed', cs', trace')
      ensures old(store.observations) <= store.observations
    {
      FreeMore(selected, i, cs);
      ghost var was := store.State();
      ghost var steps;
      claimed', cs', steps := ClaimSelected(p, cs, claimed, view, selected[i], now);
      BatchMore(p, s, was, store.State(), selected, i, claimed, cs, claimed', cs', trace, steps);
      trace' := trace + steps;
    }

    /** Tries every endpoint of a selected batch. */
    method ClaimBatch(ghost p: Project, view: Project, selected: seq<Endpoint>, now: int)
      returns (claimed: seq<PhaseCommand>, ghost cs: set<CommandId>, ghost trace: seq<Step>)
      requires Inv(p) && Inv(store.State()) && Grew(p, store.State(), {}) && SameGraph(p, view)
      requires ClaimsListed(p, store.State(), {}, []) && DistinctRefs(selected)
      requires forall e <- selected :: RunnableHere(p, e)
      modifies store
      ensures BatchState(p, old(store.State()), store.State(), selected, |selected|, claimed, cs, trace)
      ensures old(store.observations) <= store.observations
    {
      ghost var s := store.State();
      claimed, cs, trace := [], {}, [];
      BatchStart(p, s, selected);
      for i := 0 to |selected|
        invariant BatchState(p, s, store.State(), selected, i, claimed, cs, trace)
        invariant s.observations <= store.observations
      {
        claimed, cs, trace := ClaimNext(p, s, view, selected, i, now, claimed, cs, trace);
      }
    }

    /** Selects and claims until a batch claims something or nothing is left to select. */
    method SelectAndClaim(view: Project, capacity: Capacity, now: int)
      returns (claimed: seq<PhaseCommand>, ghost cs: set<CommandId>, ghost trace: seq<Step>)
      requires Inv(store.State()) && SameGraph(store.State(), view)
      requires forall e :: IsRunnable(view, e) <==> IsRunnable(store.State(), e)
      modifies store
      ensures Inv(store.State()) && Grew(old(store.State()), store.State(), cs)
      ensures ClaimsListed(old(store.State()), store.State(), cs, claimed)
      ensures ClaimsRight(old(store.State()), store.State(), cs, capacity.Available())
      ensures AllClaims(old(store.State()), claimed)
      ensures IsRunOf(old(store.State()), trace) && After(old(store.State()), trace) == store.State()
    {
      ghost var p := store.State();
      claimed, cs, trace := [], {}, [];
      var candidates := GraphRunnable(view);
      while |candidates| > 0
        invariant StillCandidates(p, candidates) && StaleLeft(p, store.State(), candidates)
        invariant claimed == [] && cs == {}
        invariant Inv(store.State()) && Grew(p, store.State(), {}) && ClaimsListed(p, store.State(), {}, [])
        invariant IsRunOf(p, trace) && After(p, trace) == store.State()
        decreases |candidates|
      {
        var selected := SelectRunnable(candidates, capacity);
        if |selected| == 0 {
          return;
        }
        SelectedFit(p, candidates, selected);
        ghost var s := store.State();
        var batch, ids, steps := ClaimBatch(p, view, selected, now);
        RunConcat(p, trace, steps);
        trace := trace + steps;
        BatchDone(p, s, store.State(), selected, batch, ids, steps);
        if batch != [] {
          PrefixClaimsFirst(p, candidates, selected);
          PrefixFills(p, candidates, selected, capacity.Available());
          StaleBeforeClaims(p, s, store.State(), candidates, selected, capacity.Available());
          claimed, cs := batch, ids;
          return;
        }
        LeftOver(p, candidates, selected);
        StaleLeftOver(p, s, store.State(), candidates, selected);
        candidates := RemoveSelectedCandidates(candidates, set e | e in selected :: e.ref);
      }
    }

    /** Hands one command to the phase controller and records its answer. */
    method Deliver(c: PhaseCommand, apply: PhaseCommand -> ErrorCode) returns (ghost step: Step)
      requires Inv(store.State())
      requires c.id in store.commands && store.commands[c.id].command == c && store.commands[c.id].completed == NoEvent
      modifies store
      ensures Allowed(old(store.State()), step) && store.State() == Apply(old(store.State()), step)
      ensures TakesAnswer(old(store.State()), store.State(), c, apply(c))
    {
      ghost var before := store.State();
      var code := apply(c);
      match code {
        case NoError =>
          step := DoAccept(c.id);
          store.MarkCommandAccepted(c.id);
        case StaleCommand =>
          step := DoReject(c, code);
          store.RejectCommand(c, code);
        case LeaseConflict =>
          step := DoReject(c, code);
          store.RejectCommand(c, code);
        case StaleCheckpoint =>
          step := DoReject(c, code);
          store.RejectCommand(c, code);
        case CommandConflict =>
          step := DoQuarantine(c.id);
          store.QuarantineCommand(c.id);
        case _ =>
          step := DoRetry(c.id);
          store.ScheduleCommandRetry(c.id);
      }
      AnswerIsTaken(before, store.State(), c, code);
    }

    /** Delivers every command of the list, one after the other. */
    method DeliverAll(commands: seq<PhaseCommand>, apply: PhaseCommand -> ErrorCode) returns (ghost trace: seq<Step>)
      requires Inv(store.State()) && DistinctIds(commands)
      requires forall c <- commands :: Undelivered(store.State(), c)
      modifies store
      ensures TakesAnswers(old(store.State()), store.State(), commands, apply)
      ensures IsRunOf(old(store.State()), trace) && After(old(store.State()), trace) == store.State()
    {
      ghost var p := store.State();
      trace := [];
      var i := 0;
      while i < |commands|
        invariant 0 <= i <= |commands|
        invariant Inv(store.State()) && TakesAnswers(p, store.State(), commands[..i], apply)
        invariant IsRunOf(p, trace) && After(p, trace) == store.State()
      {
        ghost var s := store.State();
        NextIsUndelivered(p, s, commands, i, apply);
        var step := Deliver(commands[i], apply);
        StepKeepsInv(s, step);
        RunSnoc(p, trace, step);
        AnswersMore(p, s, store.State(), commands, i, apply);
        trace := trace + [step];
        i := i + 1;
      }
      assert commands[..|commands|] == commands;
    }

    /** One reconcile pass: fold, repair, stop, re-deliver, select and claim, deliver. */
    method Reconcile(desired: int, healthy: int, now: int, apply: PhaseCommand -> ErrorCode)
      returns (code: ErrorCode, delivered: seq<PhaseCommand>, ghost trace: seq<Step>)
      requires Inv(store.State())
      modifies store
      // The pass is a run of allowed store steps, so everything proved of runs holds of it.
      ensures IsRunOf(old(store.State()), trace) && After(old(store.State()), trace) == store.State()
      // It fails exactly when the fold fails, and then does nothing more.
      ensures code == Folded(old(store.State())).error
      ensures code != NoError ==> store.State() == Folded(old(store.State())).state && delivered == []
      ensures code == NoError ==>
                var p := old(store.State());
                && DeliversRight(Viewed(p, now), Issued(p, now), delivered)
                && ClaimsWithin(Issued(p, now), store.State(),
                                Capacity(desired, healthy, |ActiveLeases(Repaired(p))|))
                && Inv(Issued(p, now)) && ClaimsDelivered(Issued(p, now), store.State(), delivered)
                && Settles(Issued(p, now), store.State(), delivered, apply)
    {
      ghost var p := store.State();
      delivered := [];
      var view: Project;
      view, code, trace := FoldAndRepair(now);
      if code != NoError {
        return;
      }
      ghost var repaired := store.State();
      var capacity := Capacity(desired, healthy, |ActiveLeases(view)|);
      ghost var cs, steps;
      delivered, cs, steps := PlanDeliveries(view, capacity, now);
      RunConcat(p, trace, steps);
      trace := trace + steps;
      ghost var claims := store.State();
      steps := DeliverAll(delivered, apply);
      RunConcat(p, trace, steps);
      trace := trace + steps;
      ClaimedWithin(Issued(p, now), claims, store.State(), cs, capacity, delivered, apply);
      ClaimsStayDelivered(Issued(p, now), claims, store.State(), delivered, apply);
      AnswersSettle(Issued(p, now), claims, store.State(), cs, delivered, apply);
    }

    /** The part of the pass that settles what has happened: the fold and the repair. */
    method FoldAndRepair(now: int) returns (view: Project, code: ErrorCode, ghost trace: seq<Step>)
      requires Inv(store.State())
      modifies store
      ensures IsRunOf(old(store.State()), trace) && After(old(store.State()), trace) == store.State()
      ensures code == Folded(old(store.State())).error
      ensures code != NoError ==> store.State() == Folded(old(store.State())).state
      ensures code == NoError ==>
                && store.State() == Repaired(old(store.State())) && Inv(store.State())
                && view == ViewAt(store.State(), now) && ActiveLeases(view) == ActiveLeases(store.State())
    {
      ghost var p := store.State();
      view := store.LoadRuntimeView(now);
      view, code, trace := FoldObservations(view, now);
      if code != NoError {
        return;
      }
      RunKeepsInv(p, trace);
      ghost var steps;
      view, steps := RepairDecisionPairs(view, now);
      RunConcat(p, trace, steps);
      trace := trace + steps;
    }

    /** The part that decides what to do next: stops, pending commands and new claims, each id once. */
    method PlanDeliveries(view: Project, capacity: Capacity, now: int)
      returns (delivered: seq<PhaseCommand>, ghost cs: set<CommandId>, ghost trace: seq<Step>)
      requires Inv(store.State()) && view == ViewAt(store.State(), now)
      modifies store
      ensures IsRunOf(old(store.State()), trace) && After(old(store.State()), trace) == store.State()
      ensures Planned(view, IssueStops(old(store.State()), view, ActiveLeases(view)), store.State(), cs, delivered)
      ensures ClaimsRight(IssueStops(old(store.State()), view, ActiveLeases(view)), store.State(), cs,
                          capacity.Available())
    {
      ghost var p := store.State();
      var stops, suppressed, steps := IssueStopCommands(view, now);
      ghost var s := store.State();
      ViewKeepsInv(p, now);
      var pending := PendingCommands(view, suppressed);
      IssuedSameRunnable(p, view, now);
      var claimed, ids, steps' := SelectAndClaim(view, capacity, now);
      RunConcat(p, steps, steps');
      trace, cs := steps + steps', ids;
      delivered := UniqueByCommandId(stops + pending + claimed);
      PlanDone(p, view, now, s, store.State(), cs, stops, pending, claimed, suppressed, delivered);
    }
  }

  // ---------------------------------------------------------------------------------------
  // What a pass promises, in terms of the state it starts from
  // ---------------------------------------------------------------------------------------

  function Folded(p: Project): Folding {
    FoldAll(p, Unfolded(p.observations))
  }

  function Repaired(p: Project): Project {
    Repair(Folded(p).state)
  }

  function Viewed(p: Project, now: int): Project {
    ViewAt(Repaired(p), now)
  }

  function Issued(p: Project, now: int): Project {
    IssueStops(Repaired(p), Viewed(p, now), ActiveLeases(Viewed(p, now)))
  }

  ghost predicate NoRunsOfStopped(v: Project, delivered: seq<PhaseCommand>) {
    forall l, c :: ToStop(v, l) && c in delivered && IsRun(c.action) ==>
      !(c.endpoint == v.leases[l].endpoint && c.generation == v.leases[l].generation)
  }

  ghost predicate StopsDelivered(v: Project, s: Project, delivered: seq<PhaseCommand>) {
    forall l :: ToStop(v, l) ==> StopListed(s, delivered, l)
  }

  ghost predicate PendingDelivered(v: Project, delivered: seq<PhaseCommand>) {
    forall id <- v.commands ::
      && Awaiting(v.commands[id])
      && !(IsRun(v.commands[id].command.action)
           && ToStop(v, LeaseId(v.commands[id].command.endpoint, v.commands[id].command.generation)))
      ==> v.commands[id].command in delivered
  }

  ghost predicate OnlyTheseDelivered(v: Project, s: Project, delivered: seq<PhaseCommand>) {
    forall c <- delivered ::
      || IsDeliverableStop(s, v, c)
      || (c.id in v.commands && v.commands[c.id].command == c && Awaiting(v.commands[c.id]))
      || (c.id !in s.commands && IsRun(c.action))
  }

  /** The delivery list of a pass over view `v` with stops issued into `s`: each command once; for a lease that
      must stop no run of its generation, and its stop exactly while that stop is unfinished; every other
      pending command; and nothing but these and newly claimed runs. */
  ghost predicate DeliversRight(v: Project, s: Project, delivered: seq<PhaseCommand>) {
    && DistinctIds(delivered)
    && NoRunsOfStopped(v, delivered)
    && StopsDelivered(v, s, delivered)
    && PendingDelivered(v, delivered)
    && OnlyTheseDelivered(v, s, delivered)
  }

  /** The claims fit the free slots; there is at least one when something could be claimed, and none is made ahead of a
      claimable endpoint that comes before it; slots stay free, with something claimable left, only behind endpoints
      that could not be claimed, and of these the stale ones are noted. */
  ghost predicate ClaimsRight(s: Project, q: Project, cs: set<CommandId>, slots: nat) {
    && |cs| <= slots
    && (slots > 0 && (exists e :: Claimable(s, e)) ==> cs != {})
    && ClaimsFirst(s, cs)
    && FillsCapacity(s, cs, slots)
    && StaleNoted(s, q, cs, slots)
  }

  /** The run commands added since `s` are claimed right, and active leases end no higher than they were or than the
      limit. */
  ghost predicate ClaimsWithin(s: Project, q: Project, capacity: Capacity) {
    && ClaimsRight(s, q, q.commands.Keys - s.commands.Keys, capacity.Available())
    && |ActiveLeases(q)| <= if capacity.active < capacity.Limit() then capacity.Limit() else capacity.active
  }

  /** Every command that is new since `s` is on the list, and what is new on the list claims an endpoint of the
      graph. */
  ghost predicate ClaimsDelivered(s: Project, q: Project, delivered: seq<PhaseCommand>) {
    && (forall id <- q.commands :: id in s.commands || q.commands[id].command in delivered)
    && (forall c <- delivered :: c.id !in s.commands ==> c.id in q.commands && IsClaim(s, c))
  }

  /** The record of a listed command before it is delivered: as stored, or as a claim writes it. */
  function Before(s: Project, c: PhaseCommand): CommandRecord {
    if c.id in s.commands then s.commands[c.id] else CommandRecord(c, false, NoEvent, NoEvent, false, false, false)
  }

  /** The leases of the new commands on the list. */
  function Taken(s: Project, delivered: seq<PhaseCommand>): set<LeaseId> {
    set c <- delivered | c.id !in s.commands :: c.lease
  }

  /** The leases of the rejected runs on the list that nobody saw start. */
  function Returned(s: Project, delivered: seq<PhaseCommand>, apply: PhaseCommand -> ErrorCode): set<LeaseId> {
    set c <- delivered | GivesBack(Before(s, c), apply(c)) :: c.lease
  }

  /** What the answers to the list leave: every command on it with the mark of its own answer and every other as it
      was; as active leases those there were, with the claimed ones and without the returned ones; and, last of the
      observations, a note of each rejection. */
  ghost predicate Settles(s: Project, q: Project, delivered: seq<PhaseCommand>, apply: PhaseCommand -> ErrorCode) {
    && (forall c <- delivered :: c.id in q.commands && Answered(Before(s, c), q.commands[c.id], apply(c)))
    && (forall id <- s.commands :: id in q.commands && (id !in IdsOf(delivered) ==> q.commands[id] == s.commands[id]))
    && ActiveLeases(q) == ActiveLeases(s) + Taken(s, delivered) - Returned(s, delivered, apply)
    && EndsWith(q.observations, Notes(delivered, apply))
  }

  ghost predicate EndsWith(os: seq<Observation>, notes: seq<Observation>) {
    |notes| <= |os| && os[|os| - |notes|..] == notes
  }

  lemma BeforeAnswers(s: Project, claims: Project, cs: set<CommandId>, c: PhaseCommand)
    requires Grew(s, claims, cs) && Undelivered(claims, c)
    ensures claims.commands[c.id] == Before(s, c)
  {
    if c.id !in s.commands { assert NewCommandOk(claims, c.id); }
  }

  lemma TakenByClaims(s: Project, claims: Project, cs: set<CommandId>, delivered: seq<PhaseCommand>)
    requires Inv(s) && Inv(claims) && Grew(s, claims, cs) && ClaimsDelivered(s, claims, delivered)
    ensures ActiveLeases(claims) == ActiveLeases(s) + Taken(s, delivered)
  {
    forall l | l in ActiveLeases(claims) && l !in s.leases ensures l in Taken(s, delivered) {
      assert NewLeaseOk(claims, cs, l);
      var id := RunCommand(l.endpoint, l.generation);
      assert CommandOk(claims, id) && claims.commands[id].command in delivered;
    }
    forall c | c in delivered && c.id !in s.commands ensures c.lease in ActiveLeases(claims) {
      NewLeaseIsActive(s, claims, cs, c);
    }
  }

  lemma NewLeaseIsActive(s: Project, claims: Project, cs: set<CommandId>, c: PhaseCommand)
    requires Inv(s) && Inv(claims) && Grew(s, claims, cs)
    requires c.id !in s.commands && c.id in claims.commands && IsClaim(s, c)
    ensures c.lease in ActiveLeases(claims)
  {
    assert CommandOk(claims, c.id);
    assert c.lease in s.leases ==> LeaseOk(s, c.lease);
    assert NewLeaseOk(claims, cs, c.lease);
  }

  lemma ReturnedAre(s: Project, claims: Project, cs: set<CommandId>, delivered: seq<PhaseCommand>,
                    apply: PhaseCommand -> ErrorCode)
    requires Grew(s, claims, cs) && forall c <- delivered :: Undelivered(claims, c)
    ensures Returned(s, delivered, apply) == GivenBack(claims, delivered, apply)
  {
    forall c | c in delivered ensures c.id in claims.commands && claims.commands[c.id] == Before(s, c) {
      BeforeAnswers(s, claims, cs, c);
    }
  }

  lemma AnswersSettle(s: Project, claims: Project, q: Project, cs: set<CommandId>, delivered: seq<PhaseCommand>,
                      apply: PhaseCommand -> ErrorCode)
    requires Inv(s) && Inv(claims) && Grew(s, claims, cs) && ClaimsDelivered(s, claims, delivered)
    requires TakesAnswers(claims, q, delivered, apply) && forall c <- delivered :: Undelivered(claims, c)
    ensures Settles(s, q, delivered, apply)
  {
    forall c | c in delivered ensures claims.commands[c.id] == Before(s, c) { BeforeAnswers(s, claims, cs, c); }
    assert ActiveLeases(q) == ActiveLeases(s) + Taken(s, delivered) - Returned(s, delivered, apply) by {
      TakenByClaims(s, claims, cs, delivered);
      ReturnedAre(s, claims, cs, delivered, apply);
    }
    assert EndsWith(q.observations, Notes(delivered, apply));
  }

  lemma ClaimsStayDelivered(s: Project, claims: Project, q: Project, delivered: seq<PhaseCommand>,
                            apply: PhaseCommand -> ErrorCode)
    requires ClaimsDelivered(s, claims, delivered) && MarksAnswers(claims, q, delivered, apply)
    ensures ClaimsDelivered(s, q, delivered)
  {
    forall id | id in q.commands ensures q.commands[id].command == claims.commands[id].command {
      if id in IdsOf(delivered) {
        var c :| c in delivered && c.id == id;
        assert Answered(claims.commands[c.id], q.commands[c.id], apply(c));
      }
    }
  }

  lemma StaleStaysNoted(s: Project, claims: Project, q: Project, cs: set<CommandId>, slots: nat)
    requires StaleNoted(s, claims, cs, slots) && claims.observations <= q.observations
    ensures StaleNoted(s, q, cs, slots)
  {
    forall e | Noted(claims, e) ensures Noted(q, e) { NotedStays(claims, q, e); }
  }

  lemma ViewKeepsInv(p: Project, now: int)
    requires Inv(p)
    ensures Inv(ViewAt(p, now))
  {
    var v := ViewAt(p, now);
    assert Evolves(p, v);
    RelabelKeepsInv(p, v);
  }

  lemma IssuedSameRunnable(p: Project, v: Project, now: int)
    requires Inv(p) && v == ViewAt(p, now) && Inv(IssueStops(p, v, ActiveLeases(v)))
    ensures forall e :: IsRunnable(v, e) <==> IsRunnable(IssueStops(p, v, ActiveLeases(v)), e)
  {
    var s := IssueStops(p, v, ActiveLeases(v));
    IssuedGrew(p, v);
    forall e
      ensures IsRunnable(v, e) <==> IsRunnable(s, e)
    {
      ViewSameRunnable(p, now, e);
      GrewSameRunnable(p, s, IssuedIds(p, v), e);
    }
  }

  /** The stops of the pass and what they suppress. */
  ghost predicate StopPlan(s: Project, v: Project, stops: seq<PhaseCommand>, suppressed: set<LeaseId>) {
    && (forall l :: l in suppressed <==> l in ActiveLeases(v) && ToStop(v, l))
    && (forall c <- stops :: IsDeliverableStop(s, v, c))
    && (forall l <- ActiveLeases(v) :: ToStop(v, l) ==> StopListed(s, stops, l))
  }

  /** The pending commands of the view, without suppressed runs. */
  ghost predicate PendingPlan(v: Project, pending: seq<PhaseCommand>, suppressed: set<LeaseId>) {
    && (forall c <- pending ::
          && c.id in v.commands && v.commands[c.id].command == c && IsPending(v.commands[c.id])
          && !Suppressed(c, suppressed))
    && (forall id <- v.commands ::
          IsPending(v.commands[id]) && !Suppressed(v.commands[id].command, suppressed) ==>
            v.commands[id].command in pending)
  }

  /** The deduplicated list of stops, pending commands and claims is the list the pass promises. */
  lemma PlanRight(p: Project, v: Project, now: int, s: Project, q: Project, cs: set<CommandId>,
                  stops: seq<PhaseCommand>, pending: seq<PhaseCommand>, claimed: seq<PhaseCommand>,
                  suppressed: set<LeaseId>, delivered: seq<PhaseCommand>)
    requires Inv(p) && v == ViewAt(p, now) && s == IssueStops(p, v, ActiveLeases(v)) && Grew(s, q, cs)
    requires StopPlan(s, v, stops, suppressed) && PendingPlan(v, pending, suppressed) && ClaimsListed(s, q, cs, claimed)
    requires DistinctIds(delivered)
    requires forall c <- delivered :: c in stops + pending + claimed
    requires forall c <- stops + pending + claimed :: exists d <- delivered :: d.id == c.id
    ensures forall c <- delivered :: Undelivered(q, c)
    ensures DeliversRight(v, s, delivered)
  {
    ListedUndelivered(p, v, now, s, q, cs, stops, pending, claimed, suppressed);
    UniqueKeepsAll(q, stops + pending + claimed, delivered);
    NoRunsListed(p, v, now, s, q, cs, stops, pending, claimed, suppressed, delivered);
    StopsListedRight(v, s, stops, suppressed, delivered);
    PendingListed(v, s, stops, pending, suppressed, delivered);
    OnlyListed(v, s, q, cs, stops, pending, claimed, suppressed, delivered);
  }

  /** The list is right and complete, and nothing on it has been delivered. */
  ghost predicate Planned(v: Project, s: Project, q: Project, cs: set<CommandId>, delivered: seq<PhaseCommand>) {
    && Inv(s) && Inv(q) && Grew(s, q, cs) && |ActiveLeases(q)| == |ActiveLeases(s)| + |cs|
    && (forall c <- delivered :: Undelivered(q, c))
    && DeliversRight(v, s, delivered) && ClaimsDelivered(s, q, delivered)
  }

  lemma PlanDone(p: Project, v: Project, now: int, s: Project, q: Project, cs: set<CommandId>,
                 stops: seq<PhaseCommand>, pending: seq<PhaseCommand>, claimed: seq<PhaseCommand>,
                 suppressed: set<LeaseId>, delivered: seq<PhaseCommand>)
    requires Inv(p) && v == ViewAt(p, now) && s == IssueStops(p, v, ActiveLeases(v)) && Grew(s, q, cs)
    requires StopPlan(s, v, stops, suppressed) && PendingPlan(v, pending, suppressed) && ClaimsListed(s, q, cs, claimed)
    requires Inv(s) && Inv(q) && AllClaims(s, claimed) && DistinctIds(delivered)
    requires forall c <- delivered :: c in stops + pending + claimed
    requires forall c <- stops + pending + claimed :: exists d <- delivered :: d.id == c.id
    ensures Planned(v, s, q, cs, delivered)
  {
    PlanRight(p, v, now, s, q, cs, stops, pending, claimed, suppressed, delivered);
    PlanHasClaims(p, v, now, s, q, cs, stops, pending, claimed, suppressed, delivered);
  }

  /** And it has every claim, with nothing new besides. */
  lemma PlanHasClaims(p: Project, v: Project, now: int, s: Project, q: Project, cs: set<CommandId>,
                      stops: seq<PhaseCommand>, pending: seq<PhaseCommand>, claimed: seq<PhaseCommand>,
                      suppressed: set<LeaseId>, delivered: seq<PhaseCommand>)
    requires v == ViewAt(p, now) && s == IssueStops(p, v, ActiveLeases(v)) && Grew(s, q, cs)
    requires StopPlan(s, v, stops, suppressed) && PendingPlan(v, pending, suppressed) && ClaimsListed(s, q, cs, claimed)
    requires AllClaims(s, claimed)
    requires forall c <- delivered :: c in stops + pending + claimed
    requires forall c <- stops + pending + claimed :: exists d <- delivered :: d.id == c.id
    ensures ClaimsDelivered(s, q, delivered)
  {
    ListedUndelivered(p, v, now, s, q, cs, stops, pending, claimed, suppressed);
    UniqueKeepsAll(q, stops + pending + claimed, delivered);
    forall c | c in stops + pending ensures c.id in s.commands {
      OldOnesAreStored(p, v, now, s, stops, pending, suppressed, c);
    }
    forall c | c in delivered && c.id !in s.commands ensures c.id in q.commands && IsClaim(s, c) {
      assert c in stops + pending || c in claimed;
      assert Undelivered(q, c);
    }
  }

  lemma OldOnesAreStored(p: Project, v: Project, now: int, s: Project, stops: seq<PhaseCommand>,
                         pending: seq<PhaseCommand>, suppressed: set<LeaseId>, c: PhaseCommand)
    requires v == ViewAt(p, now) && s == IssueStops(p, v, ActiveLeases(v))
    requires StopPlan(s, v, stops, suppressed) && PendingPlan(v, pending, suppressed) && c in stops + pending
    ensures c.id in s.commands
  {
    if c in stops { assert IsDeliverableStop(s, v, c); }
  }

  /** Everything on the list is a stored, unfinished command. */
  lemma ListedUndelivered(p: Project, v: Project, now: int, s: Project, q: Project, cs: set<CommandId>,
                          stops: seq<PhaseCommand>, pending: seq<PhaseCommand>, claimed: seq<PhaseCommand>,
                          suppressed: set<LeaseId>)
    requires v == ViewAt(p, now) && s == IssueStops(p, v, ActiveLeases(v)) && Grew(s, q, cs)
    requires StopPlan(s, v, stops, suppressed) && PendingPlan(v, pending, suppressed) && ClaimsListed(s, q, cs, claimed)
    ensures forall c <- stops + pending + claimed :: Undelivered(q, c)
  {
    forall c | c in stops + pending + claimed
      ensures Undelivered(q, c)
    {
      if c in stops {
        assert IsDeliverableStop(s, v, c);
      } else if c in pending {
        assert s.commands[c.id] == p.commands[c.id];
      } else {
        assert NewCommandOk(q, c.id);
      }
    }
  }

  lemma UniqueKeepsAll(q: Project, list: seq<PhaseCommand>, out: seq<PhaseCommand>)
    requires forall c <- list :: Undelivered(q, c)
    requires forall c <- out :: c in list
    requires forall c <- list :: exists d <- out :: d.id == c.id
    ensures forall c :: c in list <==> c in out
  {
    forall c | c in list
      ensures c in out
    {
      var d :| d in out && d.id == c.id;
      assert Undelivered(q, c) && Undelivered(q, d);
    }
  }

  lemma NoRunsListed(p: Project, v: Project, now: int, s: Project, q: Project, cs: set<CommandId>,
                     stops: seq<PhaseCommand>, pending: seq<PhaseCommand>, claimed: seq<PhaseCommand>,
                     suppressed: set<LeaseId>, delivered: seq<PhaseCommand>)
    requires Inv(p) && v == ViewAt(p, now) && s.leases == p.leases
    requires StopPlan(s, v, stops, suppressed) && PendingPlan(v, pending, suppressed) && ClaimsListed(s, q, cs, claimed)
    requires forall c <- delivered :: c in stops + pending + claimed
    ensures NoRunsOfStopped(v, delivered)
  {
    forall l, c | ToStop(v, l) && c in delivered && IsRun(c.action)
      ensures !(c.endpoint == v.leases[l].endpoint && c.generation == v.leases[l].generation)
    {
      ViewLease(p, now, l);
      if c in claimed {
        assert IsNewRun(s, q, c);
        assert l in s.leases && s.leases[l].active;
      } else {
        assert c in stops ==> IsDeliverableStop(s, v, c);
        assert c in pending && l in suppressed;
      }
    }
  }

  lemma StopsListedRight(v: Project, s: Project, stops: seq<PhaseCommand>, suppressed: set<LeaseId>,
                         delivered: seq<PhaseCommand>)
    requires StopPlan(s, v, stops, suppressed) && forall c <- stops :: c in delivered
    ensures StopsDelivered(v, s, delivered)
  {
    forall l | ToStop(v, l)
      ensures StopListed(s, delivered, l)
    {
      assert l in ActiveLeases(v) && StopListed(s, stops, l);
    }
  }

  lemma PendingListed(v: Project, s: Project, stops: seq<PhaseCommand>, pending: seq<PhaseCommand>,
                      suppressed: set<LeaseId>, delivered: seq<PhaseCommand>)
    requires StopPlan(s, v, stops, suppressed) && PendingPlan(v, pending, suppressed)
    requires forall c <- pending :: c in delivered
    ensures PendingDelivered(v, delivered)
  {
  }

  lemma OnlyListed(v: Project, s: Project, q: Project, cs: set<CommandId>, stops: seq<PhaseCommand>,
                   pending: seq<PhaseCommand>, claimed: seq<PhaseCommand>, suppressed: set<LeaseId>,
                   delivered: seq<PhaseCommand>)
    requires s.commands.Keys !! cs && ClaimsListed(s, q, cs, claimed)
    requires StopPlan(s, v, stops, suppressed) && PendingPlan(v, pending, suppressed)
    requires forall c <- delivered :: c in stops + pending + claimed
    ensures OnlyTheseDelivered(v, s, delivered)
  {
    forall c | c in delivered
      ensures || IsDeliverableStop(s, v, c)
              || (c.id in v.commands && v.commands[c.id].command == c && Awaiting(v.commands[c.id]))
              || (c.id !in s.commands && IsRun(c.action))
    {
      if c in claimed {
        assert IsNewRun(s, q, c);
      }
    }
  }

  lemma ClaimedWithin(s: Project, claims: Project, q: Project, cs: set<CommandId>, capacity: Capacity,
                      delivered: seq<PhaseCommand>, apply: PhaseCommand -> ErrorCode)
    requires Grew(s, claims, cs) && TakesAnswers(claims, q, delivered, apply)
    requires capacity.active == |ActiveLeases(s)| && |ActiveLeases(claims)| == |ActiveLeases(s)| + |cs|
    requires ClaimsRight(s, claims, cs, capacity.Available())
    ensures ClaimsWithin(s, q, capacity)
  {
    assert q.commands.Keys - s.commands.Keys == cs;
    SubsetSize(ActiveLeases(q), ActiveLeases(claims));
    StaleStaysNoted(s, claims, q, cs, capacity.Available());
  }

  lemma {:induction false} FoldShrinks(p: Project, es: seq<Observation>)
    ensures ActiveLeases(FoldAll(p, es).state) <= ActiveLeases(p)
    decreases |es|
  {
    if es != [] && FoldOne(p, es[0]).Ok? {
      FoldShrinks(FoldOne(p, es[0]).value, es[1..]);
      assert ActiveLeases(FoldOne(p, es[0]).value) <= ActiveLeases(p);
    }
  }

  /** Counted from the start of the pass: active leases never end above both the number there were and the limit. */
  lemma PassKeepsWithinLimit(p: Project, q: Project, now: int, desired: int, healthy: int)
    requires ClaimsWithin(Issued(p, now), q, Capacity(desired, healthy, |ActiveLeases(Repaired(p))|))
    ensures |ActiveLeases(q)| <= |ActiveLeases(p)| || (|ActiveLeases(q)| <= desired && |ActiveLeases(q)| <= healthy)
  {
    FoldShrinks(p, Unfolded(p.observations));
    RepairedShrinks(Folded(p).state);
    SubsetSize(ActiveLeases(Repaired(p)), ActiveLeases(p));
  }

  /** What a pass does about an active lease. If the graph or the time has overtaken it, its stop is stored, in the
      words of the lease when it is new, and delivered as long as it is unfinished, and nothing else of that generation
      is. If not, no stop is made for it. */
  lemma PassStopsIff(p: Project, now: int, delivered: seq<PhaseCommand>, l: LeaseId)
    requires Inv(Issued(p, now)) && DeliversRight(Viewed(p, now), Issued(p, now), delivered)
    requires l in Repaired(p).leases && Repaired(p).leases[l].active
    ensures var r, s, stop, x := Repaired(p), Issued(p, now), StopCommand(l), Repaired(p).leases[l];
            && (stop in s.commands <==> stop in r.commands || Outdated(r, l, now))
            && (stop in s.commands && stop !in r.commands ==>
                  s.commands[stop] == CommandRecord(
                    PhaseCommand(StopCommand(l), x.endpoint, x.generation, x.binding, l, Stop, r.latest),
                    false, NoEvent, NoEvent, false, false, false))
            && (Outdated(r, l, now) ==> OnlyItsStop(s, delivered, l))
  {
    assert LeaseOk(Issued(p, now), l);
    IssuesStopIff(Repaired(p), now, l);
    StopsIff(Repaired(p), l, now);
    if Outdated(Repaired(p), l, now) { StoppedIsStopped(Viewed(p, now), Issued(p, now), delivered, l); }
  }

  /** Of the lease's generation nothing but its stop is delivered, and that as long as it is unfinished. */
  ghost predicate OnlyItsStop(s: Project, delivered: seq<PhaseCommand>, l: LeaseId) {
    && l in s.leases && StopCommand(l) in s.commands
    && (Awaiting(s.commands[StopCommand(l)]) ==> s.commands[StopCommand(l)].command in delivered)
    && forall c <- delivered ::
         c.endpoint == s.leases[l].endpoint && c.generation == s.leases[l].generation ==> c.action == Stop
  }

  lemma StoppedIsStopped(v: Project, s: Project, delivered: seq<PhaseCommand>, l: LeaseId)
    requires DeliversRight(v, s, delivered) && ToStop(v, l) && l in s.leases
    requires s.leases[l].endpoint == v.leases[l].endpoint && s.leases[l].generation == v.leases[l].generation
    ensures OnlyItsStop(s, delivered, l)
  {
    assert StopListed(s, delivered, l);
  }

  ghost predicate Undelivered(p: Project, c: PhaseCommand) {
    c.id in p.commands && p.commands[c.id].command == c && p.commands[c.id].completed == NoEvent
  }

  /** The claimed commands are exactly the new run commands, one each and each with a new active lease, none for
      a generation already leased. */
  ghost predicate ClaimsListed(p: Project, q: Project, cs: set<CommandId>, claimed: seq<PhaseCommand>) {
    && |cs| == |claimed| && |ActiveLeases(q)| == |ActiveLeases(p)| + |claimed|
    && (forall c <- claimed :: c.id in cs && IsNewRun(p, q, c))
    && (forall id <- cs :: id in q.commands && q.commands[id].command in claimed)
  }

  /** The run commands that claiming every claimable endpoint of the list gives. */
  ghost function ClaimableIds(p: Project, es: seq<Endpoint>): set<CommandId> {
    if es == [] then {}
    else
      var n := |es| - 1;
      ClaimableIds(p, es[..n]) + (if Claimable(p, es[n]) then {RunCommand(es[n].ref, es[n].generation)} else {})
  }

  lemma {:induction false} ClaimableIdsAre(p: Project, es: seq<Endpoint>)
    ensures forall i | 0 <= i < |es| && Claimable(p, es[i]) ::
              RunCommand(es[i].ref, es[i].generation) in ClaimableIds(p, es)
    ensures forall id <- ClaimableIds(p, es) ::
              exists i | 0 <= i < |es| :: Claimable(p, es[i]) && id == RunCommand(es[i].ref, es[i].generation)
  {
    if es != [] {
      var n := |es| - 1;
      ClaimableIdsAre(p, es[..n]);
      forall id | id in ClaimableIds(p, es)
        ensures exists i | 0 <= i < |es| :: Claimable(p, es[i]) && id == RunCommand(es[i].ref, es[i].generation)
      {
        if id in ClaimableIds(p, es[..n]) {
          var i :| 0 <= i < n && Claimable(p, es[..n][i]) && id == RunCommand(es[..n][i].ref, es[..n][i].generation);
          assert es[i] == es[..n][i];
        } else {
          assert Claimable(p, es[n]);
        }
      }
    }
  }

  ghost predicate FreeFrom(es: seq<Endpoint>, n: nat, cs: set<CommandId>) {
    forall j :: n <= j < |es| ==> RunCommand(es[j].ref, es[j].generation) !in cs
  }

  lemma FreeMore(es: seq<Endpoint>, n: nat, cs: set<CommandId>)
    requires DistinctRefs(es) && n < |es| && FreeFrom(es, n, cs)
    ensures RunCommand(es[n].ref, es[n].generation) !in cs
    ensures FreeFrom(es, n + 1, cs) && FreeFrom(es, n + 1, cs + {RunCommand(es[n].ref, es[n].generation)})
  {
  }

  lemma ClaimableMore(p: Project, es: seq<Endpoint>, n: nat)
    requires n < |es|
    ensures ClaimableIds(p, es[..n + 1]) == ClaimableIds(p, es[..n])
              + (if Claimable(p, es[n]) then {RunCommand(es[n].ref, es[n].generation)} else {})
  {
    assert es[..n + 1][..n] == es[..n];
  }

  /** Whatever is claimed comes before every claimable endpoint that is not. */
  ghost predicate ClaimsFirst(p: Project, cs: set<CommandId>) {
    forall id, e | id in cs && Claimable(p, e) && RunCommand(e.ref, e.generation) !in cs ::
      id.RunCommand? && Precedes(id.endpoint, e.ref)
  }

  /** What is left of the runnable endpoints, with every claimable one among them. */
  ghost predicate StillCandidates(p: Project, candidates: seq<Endpoint>) {
    && InOrder(candidates) && (forall e <- candidates :: RunnableHere(p, e))
    && forall e :: Claimable(p, e) ==> e in candidates
  }

  /** The selected ones are in order too. */
  lemma SelectedFit(p: Project, candidates: seq<Endpoint>, selected: seq<Endpoint>)
    requires StillCandidates(p, candidates) && selected <= candidates
    ensures DistinctRefs(selected) && forall e <- selected :: RunnableHere(p, e)
  {
    OrderedAreDistinct(candidates);
    forall e | e in selected ensures RunnableHere(p, e) {
      var i :| 0 <= i < |selected| && selected[i] == e;
      assert candidates[i] == e;
    }
  }

  lemma NotClaimedIsLater(p: Project, candidates: seq<Endpoint>, selected: seq<Endpoint>, e: Endpoint, j: nat)
    requires selected <= candidates && j < |candidates| && candidates[j] == e
    requires Claimable(p, e) && RunCommand(e.ref, e.generation) !in ClaimableIds(p, selected)
    ensures j >= |selected|
  {
    ClaimableIdsAre(p, selected);
  }

  lemma PrefixClaimsFirst(p: Project, candidates: seq<Endpoint>, selected: seq<Endpoint>)
    requires StillCandidates(p, candidates) && selected <= candidates
    ensures ClaimsFirst(p, ClaimableIds(p, selected))
  {
    var cs := ClaimableIds(p, selected);
    forall id, e | id in cs && Claimable(p, e) && RunCommand(e.ref, e.generation) !in cs
      ensures id.RunCommand? && Precedes(id.endpoint, e.ref)
    {
      ClaimableIdsAre(p, selected);
      var i :| 0 <= i < |selected| && Claimable(p, selected[i])
            && id == RunCommand(selected[i].ref, selected[i].generation);
      var j :| 0 <= j < |candidates| && candidates[j] == e;
      NotClaimedIsLater(p, candidates, selected, e, j);
      assert candidates[i] == selected[i];
    }
  }

  /** What a whole batch comes to. */
  lemma BatchDone(p: Project, s: Project, q: Project, selected: seq<Endpoint>, claimed: seq<PhaseCommand>,
                  cs: set<CommandId>, trace: seq<Step>)
    requires BatchState(p, s, q, selected, |selected|, claimed, cs, trace)
    ensures cs == ClaimableIds(p, selected) && AllClaims(p, claimed) && NotedTo(p, q, selected, |selected|)
  {
    assert selected[..|selected|] == selected;
  }

  /** Unless the free slots are used up, whatever claimable endpoint is left comes after a runnable one that could not
      be claimed and so took a slot for nothing. */
  ghost predicate FillsCapacity(p: Project, cs: set<CommandId>, slots: nat) {
    |cs| < slots ==> forall e | Claimable(p, e) && RunCommand(e.ref, e.generation) !in cs :: HeldUp(p, e)
  }

  ghost predicate HeldUp(p: Project, e: Endpoint) {
    exists x :: RunnableHere(p, x) && !Claimable(p, x) && Precedes(x.ref, e.ref)
  }

  lemma {:induction false} AllClaimable(p: Project, es: seq<Endpoint>)
    requires DistinctRefs(es) && forall e <- es :: Claimable(p, e)
    ensures |ClaimableIds(p, es)| == |es|
  {
    if es != [] {
      var n := |es| - 1;
      AllClaimable(p, es[..n]);
      ClaimableIdsAre(p, es[..n]);
    }
  }

  lemma PrefixFills(p: Project, candidates: seq<Endpoint>, selected: seq<Endpoint>, slots: nat)
    requires StillCandidates(p, candidates) && selected <= candidates && (|selected| < slots ==> selected == candidates)
    ensures FillsCapacity(p, ClaimableIds(p, selected), slots)
  {
    SelectedFit(p, candidates, selected);
    forall e | |ClaimableIds(p, selected)| < slots && Claimable(p, e)
               && RunCommand(e.ref, e.generation) !in ClaimableIds(p, selected)
      ensures HeldUp(p, e)
    {
      var j :| 0 <= j < |candidates| && candidates[j] == e;
      NotClaimedIsLater(p, candidates, selected, e, j);
      if forall x <- selected :: Claimable(p, x) { AllClaimable(p, selected); }
      var i :| 0 <= i < |selected| && !Claimable(p, selected[i]);
      assert candidates[i] == selected[i];
    }
  }

  /** Every stale endpoint that was runnable is noted or still to be tried. */
  ghost predicate StaleLeft(p: Project, q: Project, candidates: seq<Endpoint>) {
    forall e | RunnableHere(p, e) && Stale(p, e.binding) :: e in candidates || Noted(q, e)
  }

  /** The stale endpoints before a claimed one are noted, and all of them when nothing could be claimed. */
  ghost predicate StaleNoted(p: Project, q: Project, cs: set<CommandId>, slots: nat) {
    forall e | RunnableHere(p, e) && Stale(p, e.binding) && slots > 0 && (cs == {} || BeforeOne(e.ref, cs)) ::
      Noted(q, e)
  }

  ghost predicate BeforeOne(r: EndpointRef, cs: set<CommandId>) {
    exists id <- cs :: id.RunCommand? && Precedes(r, id.endpoint)
  }

  lemma InOrderMeans(es: seq<Endpoint>, i: nat, j: nat)
    requires InOrder(es) && i < |es| && j < |es| && Precedes(es[i].ref, es[j].ref)
    ensures i < j
  {
    NotBelowItself(es[i].ref.task);
    if j < i { PrecedesTransitive(es[i].ref, es[j].ref, es[i].ref); }
  }

  lemma StaleBeforeClaims(p: Project, s: Project, q: Project, candidates: seq<Endpoint>, selected: seq<Endpoint>,
                          slots: nat)
    requires StillCandidates(p, candidates) && selected <= candidates && ClaimableIds(p, selected) != {}
    requires StaleLeft(p, s, candidates) && s.observations <= q.observations && NotedTo(p, q, selected, |selected|)
    ensures StaleNoted(p, q, ClaimableIds(p, selected), slots)
  {
    var cs := ClaimableIds(p, selected);
    forall e | RunnableHere(p, e) && Stale(p, e.binding) && BeforeOne(e.ref, cs) ensures Noted(q, e) {
      if Noted(s, e) {
        NotedStays(s, q, e);
      } else {
        var j :| 0 <= j < |candidates| && candidates[j] == e;
        var id :| id in cs && id.RunCommand? && Precedes(e.ref, id.endpoint);
        ClaimableIdsAre(p, selected);
        var i :| 0 <= i < |selected| && Claimable(p, selected[i])
                 && id == RunCommand(selected[i].ref, selected[i].generation);
        assert candidates[i] == selected[i];
        InOrderMeans(candidates, j, i);
        assert selected[j] == e;
      }
    }
  }

  lemma StaleLeftOver(p: Project, s: Project, q: Project, candidates: seq<Endpoint>, selected: seq<Endpoint>)
    requires StillCandidates(p, candidates) && selected <= candidates
    requires StaleLeft(p, s, candidates) && s.observations <= q.observations && NotedTo(p, q, selected, |selected|)
    ensures StaleLeft(p, q, Remaining(candidates, set e | e in selected :: e.ref))
  {
    var refs := set e | e in selected :: e.ref;
    RemainingIs(candidates, refs);
    OrderedAreDistinct(candidates);
    forall e | RunnableHere(p, e) && Stale(p, e.binding) && !Noted(q, e) ensures e in Remaining(candidates, refs) {
      if Noted(s, e) { NotedStays(s, q, e); }
      var j :| 0 <= j < |candidates| && candidates[j] == e;
      forall x | x in selected ensures x.ref != e.ref {
        var i :| 0 <= i < |selected| && selected[i] == x;
        assert candidates[i] == x;
      }
    }
  }

  /** A batch that claims nothing leaves every claimable endpoint to the next. */
  lemma LeftOver(p: Project, candidates: seq<Endpoint>, selected: seq<Endpoint>)
    requires StillCandidates(p, candidates) && selected <= candidates && selected != []
    requires ClaimableIds(p, selected) == {}
    ensures var rest := Remaining(candidates, set e | e in selected :: e.ref);
            StillCandidates(p, rest) && |rest| < |candidates|
  {
    var refs := set e | e in selected :: e.ref;
    RemainingIs(candidates, refs);
    assert selected[0] in selected && selected[0] == candidates[0];
    RemainingShrinks(candidates, refs);
    OrderedAreDistinct(candidates);
    forall e | Claimable(p, e) ensures e.ref !in refs {
      var j :| 0 <= j < |candidates| && candidates[j] == e;
      NotClaimedIsLater(p, candidates, selected, e, j);
      forall x | x in selected ensures x.ref != e.ref {
        var i :| 0 <= i < |selected| && selected[i] == x;
        assert candidates[i] == x;
      }
    }
  }

  /** The run command that claims the endpoint. */
  function ClaimOf(p: Project, e: Endpoint): PhaseCommand {
    RunCommandFor(e, ActionFor(p, e.binding), p.latest)
  }

  /** It is on record that the endpoint could not be started from its binding. */
  ghost predicate Noted(q: Project, e: Endpoint) {
    HasEvent(q, EndpointRejection(e.ref, e.generation, StaleCheckpoint))
  }

  /** Of the first n endpoints the stale ones are noted. */
  ghost predicate NotedTo(p: Project, q: Project, es: seq<Endpoint>, n: nat)
    requires n <= |es|
  {
    forall j | 0 <= j < n :: Stale(p, es[j].binding) ==> Noted(q, es[j])
  }

  lemma NotedMore(p: Project, q: Project, q': Project, es: seq<Endpoint>, n: nat)
    requires n < |es| && NotedTo(p, q, es, n) && q.observations <= q'.observations
    requires Stale(p, es[n].binding) ==> Noted(q', es[n])
    ensures NotedTo(p, q', es, n + 1)
  {
    forall j | 0 <= j < n && Noted(q, es[j]) ensures Noted(q', es[j]) { NotedStays(q, q', es[j]); }
  }

  lemma NotedStays(q: Project, q': Project, e: Endpoint)
    requires Noted(q, e) && q.observations <= q'.observations
    ensures Noted(q', e)
  {
    var o :| o in q.observations && o.id == EndpointRejection(e.ref, e.generation, StaleCheckpoint);
    assert o in q'.observations;
  }

  ghost predicate AllClaims(p: Project, claimed: seq<PhaseCommand>) {
    forall c <- claimed :: IsClaim(p, c)
  }

  /** What was claimed is right and, of the first n endpoints, what could not be started is noted. */
  ghost predicate Answerable(p: Project, q: Project, es: seq<Endpoint>, n: nat, claimed: seq<PhaseCommand>)
    requires n <= |es|
  {
    AllClaims(p, claimed) && NotedTo(p, q, es, n)
  }

  lemma AnswerableMore(p: Project, q: Project, q': Project, es: seq<Endpoint>, n: nat, claimed: seq<PhaseCommand>,
                       claimed': seq<PhaseCommand>)
    requires n < |es| && Answerable(p, q, es, n, claimed) && q.observations <= q'.observations
    requires Stale(p, es[n].binding) ==> Noted(q', es[n])
    requires claimed' == if Claimable(p, es[n]) then claimed + [ClaimOf(p, es[n])] else claimed
    ensures Answerable(p, q', es, n + 1, claimed')
  {
    NotedMore(p, q, q', es, n);
    if Claimable(p, es[n]) { ClaimableIsClaim(p, es[n]); }
  }

  /** Of the first n endpoints exactly the claimable ones were claimed. */
  ghost predicate Tried(p: Project, es: seq<Endpoint>, n: nat, count: nat, cs: set<CommandId>)
    requires n <= |es|
  {
    count <= n && FreeFrom(es, n, cs) && cs == ClaimableIds(p, es[..n])
  }

  lemma TriedMore(p: Project, es: seq<Endpoint>, n: nat, count: nat, cs: set<CommandId>, count': nat,
                  cs': set<CommandId>)
    requires n < |es| && DistinctRefs(es) && Tried(p, es, n, count, cs)
    requires count' == count + if Claimable(p, es[n]) then 1 else 0
    requires cs' == if Claimable(p, es[n]) then cs + {RunCommand(es[n].ref, es[n].generation)} else cs
    ensures Tried(p, es, n + 1, count', cs')
  {
    assert cs' == ClaimableIds(p, es[..n + 1]) by { ClaimableMore(p, es, n); }
    assert FreeFrom(es, n + 1, cs') by { FreeMore(es, n, cs); }
  }

  /** How far a batch has come: the first n endpoints were tried. */
  ghost predicate BatchState(p: Project, s: Project, q: Project, es: seq<Endpoint>, n: nat,
                             claimed: seq<PhaseCommand>, cs: set<CommandId>, trace: seq<Step>)
    requires n <= |es|
  {
    && Tried(p, es, n, |claimed|, cs)
    && Inv(q) && Grew(p, q, cs) && ClaimsListed(p, q, cs, claimed)
    && Answerable(p, q, es, n, claimed)
    && IsRunOf(s, trace) && After(s, trace) == q
  }

  // ---------------------------------------------------------------------------------------
  // What becomes of an answer
  // ---------------------------------------------------------------------------------------

  predicate Rejects(code: ErrorCode) {
    code == StaleCommand || code == LeaseConflict || code == StaleCheckpoint
  }

  /** The mark an answer leaves on a command: accepted, rejected for good, in quarantine, or to be tried again. */
  predicate Answered(was: CommandRecord, now: CommandRecord, code: ErrorCode) {
    if code == NoError then now == was.(accepted := true, retryScheduled := false)
    else if code == CommandConflict then now == was.(quarantined := true)
    else if Rejects(code) then
      now == was.(notExecutable := true, retryScheduled := false, completed := CommandRejection(was.command.id, code))
    else now == was.(retryScheduled := true)
  }

  function NoteOf(c: PhaseCommand, code: ErrorCode): Observation {
    Observation(CommandRejection(c.id, code), DispatchRejected, c.id, c.endpoint, c.generation, c.binding, c.lease,
                "", false, code, true)
  }

  /** The rejection of a run that nobody saw start gives its lease back. */
  predicate GivesBack(was: CommandRecord, code: ErrorCode) {
    Rejects(code) && was.command.action != Stop && was.observed == NoEvent
  }

  /** One answer marks its command and no other, gives the lease back and is noted when it is a rejection. */
  ghost predicate TakesAnswer(p: Project, q: Project, c: PhaseCommand, code: ErrorCode)
    requires c.id in p.commands
  {
    && c.id in q.commands && q.commands == p.commands[c.id := q.commands[c.id]]
    && Answered(p.commands[c.id], q.commands[c.id], code)
    && ActiveLeases(q) == ActiveLeases(p) - (if GivesBack(p.commands[c.id], code) then {c.lease} else {})
    && q.observations == p.observations + (if Rejects(code) then [NoteOf(c, code)] else [])
  }

  lemma RejectionIsNew(p: Project, c: PhaseCommand, code: ErrorCode)
    requires Inv(p) && Undelivered(p, c)
    ensures !HasEvent(p, CommandRejection(c.id, code))
  {
    forall o | o in p.observations ensures o.id != CommandRejection(c.id, code) { assert ObservationOk(p, o); }
  }

  lemma RejectionIsTaken(p: Project, c: PhaseCommand, code: ErrorCode)
    requires Inv(p) && Undelivered(p, c) && Rejects(code)
    ensures TakesAnswer(p, Reject(p, c, code), c, code)
  {
    RejectionIsNew(p, c, code);
    assert CommandOk(p, c.id);
    assert ActiveLeases(Reject(p, c, code)) ==
           ActiveLeases(p) - (if GivesBack(p.commands[c.id], code) then {c.lease} else {});
  }

  lemma AnswerIsTaken(p: Project, q: Project, c: PhaseCommand, code: ErrorCode)
    requires Inv(p) && Undelivered(p, c)
    requires q == if code == NoError then MarkAccepted(p, c.id)
                  else if code == CommandConflict then Quarantine(p, c.id)
                  else if Rejects(code) then Reject(p, c, code)
                  else ScheduleRetry(p, c.id)
    ensures TakesAnswer(p, q, c, code)
  {
    if Rejects(code) { RejectionIsTaken(p, c, code); }
  }

  /** The notes of the rejections among the answers, in the order of delivery. */
  function Notes(cs: seq<PhaseCommand>, apply: PhaseCommand -> ErrorCode): seq<Observation> {
    if cs == [] then []
    else
      var c := cs[|cs| - 1];
      Notes(cs[..|cs| - 1], apply) + (if Rejects(apply(c)) then [NoteOf(c, apply(c))] else [])
  }

  /** The leases that the rejections among the answers give back. */
  function GivenBack(p: Project, cs: seq<PhaseCommand>, apply: PhaseCommand -> ErrorCode): set<LeaseId> {
    set c <- cs | c.id in p.commands && GivesBack(p.commands[c.id], apply(c)) :: c.lease
  }

  /** Every command of the list has the mark of its own answer and no other command changed; exactly the leases of
      rejected runs are given back; each rejection is noted. */
  ghost predicate TakesAnswers(p: Project, q: Project, cs: seq<PhaseCommand>, apply: PhaseCommand -> ErrorCode) {
    && MarksAnswers(p, q, cs, apply)
    && ActiveLeases(q) == ActiveLeases(p) - GivenBack(p, cs, apply)
    && q.observations == p.observations + Notes(cs, apply)
  }

  ghost predicate MarksAnswers(p: Project, q: Project, cs: seq<PhaseCommand>, apply: PhaseCommand -> ErrorCode) {
    && q.commands.Keys == p.commands.Keys
    && (forall c <- cs :: c.id in p.commands && Answered(p.commands[c.id], q.commands[c.id], apply(c)))
    && (forall id <- p.commands :: id !in IdsOf(cs) ==> q.commands[id] == p.commands[id])
  }

  lemma NextIsUndelivered(p: Project, s: Project, cs: seq<PhaseCommand>, i: nat, apply: PhaseCommand -> ErrorCode)
    requires i < |cs| && DistinctIds(cs) && Undelivered(p, cs[i]) && MarksAnswers(p, s, cs[..i], apply)
    ensures Undelivered(s, cs[i]) && s.commands[cs[i].id] == p.commands[cs[i].id]
  {
    assert cs[i].id !in IdsOf(cs[..i]);
  }

  lemma MarksMore(p: Project, s: Project, q: Project, cs: seq<PhaseCommand>, c: PhaseCommand,
                  apply: PhaseCommand -> ErrorCode)
    requires MarksAnswers(p, s, cs, apply) && c.id in p.commands && c.id !in IdsOf(cs)
    requires s.commands[c.id] == p.commands[c.id] && TakesAnswer(s, q, c, apply(c))
    ensures MarksAnswers(p, q, cs + [c], apply)
  {
    IdsMore(cs, c);
    forall d | d in cs ensures d.id != c.id { assert d.id in IdsOf(cs); }
  }

  lemma GivenBackMore(p: Project, cs: seq<PhaseCommand>, c: PhaseCommand, apply: PhaseCommand -> ErrorCode)
    requires c.id in p.commands
    ensures GivenBack(p, cs + [c], apply) ==
            GivenBack(p, cs, apply) + (if GivesBack(p.commands[c.id], apply(c)) then {c.lease} else {})
  {
    assert forall d :: d in cs + [c] <==> d in cs || d == c;
  }

  lemma AnswersMore(p: Project, s: Project, q: Project, cs: seq<PhaseCommand>, i: nat,
                    apply: PhaseCommand -> ErrorCode)
    requires i < |cs| && DistinctIds(cs) && Undelivered(p, cs[i]) && TakesAnswers(p, s, cs[..i], apply)
    requires cs[i].id in s.commands && TakesAnswer(s, q, cs[i], apply(cs[i]))
    ensures TakesAnswers(p, q, cs[..i + 1], apply)
  {
    NextIsUndelivered(p, s, cs, i, apply);
    assert cs[i].id !in IdsOf(cs[..i]);
    assert cs[..i + 1] == cs[..i] + [cs[i]] && cs[..i + 1][..i] == cs[..i];
    assert MarksAnswers(p, q, cs[..i + 1], apply) by { MarksMore(p, s, q, cs[..i], cs[i], apply); }
    assert ActiveLeases(q) == ActiveLeases(p) - GivenBack(p, cs[..i + 1], apply) by {
      GivenBackMore(p, cs[..i], cs[i], apply);
    }
  }

  lemma BatchStart(p: Project, s: Project, es: seq<Endpoint>)
    requires Inv(s) && Grew(p, s, {}) && ClaimsListed(p, s, {}, [])
    ensures BatchState(p, s, s, es, 0, [], {}, [])
  {
  }

  lemma BatchMore(p: Project, s: Project, q: Project, q': Project, es: seq<Endpoint>, n: nat,
                  claimed: seq<PhaseCommand>, cs: set<CommandId>, claimed': seq<PhaseCommand>, cs': set<CommandId>,
                  trace: seq<Step>, steps: seq<Step>)
    requires n < |es| && DistinctRefs(es) && BatchState(p, s, q, es, n, claimed, cs, trace)
    requires Inv(q') && Grew(p, q', cs') && ClaimsListed(p, q', cs', claimed')
    requires q.observations <= q'.observations && (Stale(p, es[n].binding) ==> Noted(q', es[n]))
    requires claimed' == if Claimable(p, es[n]) then claimed + [ClaimOf(p, es[n])] else claimed
    requires cs' == if Claimable(p, es[n]) then cs + {RunCommand(es[n].ref, es[n].generation)} else cs
    requires IsRunOf(q, steps) && After(q, steps) == q'
    ensures BatchState(p, s, q', es, n + 1, claimed', cs', trace + steps)
  {
    TriedMore(p, es, n, |claimed|, cs, |claimed'|, cs');
    assert Answerable(p, q', es, n + 1, claimed') by { AnswerableMore(p, q, q', es, n, claimed, claimed'); }
    assert IsRunOf(s, trace + steps) && After(s, trace + steps) == q' by { RunConcat(s, trace, steps); }
  }

  ghost predicate IsNewRun(p: Project, q: Project, c: PhaseCommand) {
    && c.id in q.commands && q.commands[c.id].command == c && IsRun(c.action)
    && !HasActiveLease(p, c.endpoint, c.generation)
  }

  ghost predicate KeepsCommands(p: Project, q: Project) {
    forall c <- p.commands :: c in q.commands && q.commands[c].command == p.commands[c].command
  }

  lemma ClaimsListedMore(p: Project, q: Project, q': Project, cs: set<CommandId>, claimed: seq<PhaseCommand>,
                         more: seq<PhaseCommand>, cs': set<CommandId>)
    requires ClaimsListed(p, q, cs, claimed) && KeepsCommands(q, q')
    requires |ActiveLeases(q')| == |ActiveLeases(q)| + |more|
    requires || (more == [] && cs' == cs)
             || (|more| == 1 && cs' == cs + {more[0].id} && more[0].id !in cs && IsNewRun(p, q', more[0]))
    ensures ClaimsListed(p, q', cs', claimed + more)
  {
  }

  /** The claim of a selected endpoint as one step of the phase. */
  lemma ClaimPhase(p: Project, s: Project, cs: set<CommandId>, e: Endpoint, a: Action, now: int)
    requires Inv(p) && Inv(s) && Grew(p, s, cs) && IsRun(a)
    requires RunnableHere(p, e)
    requires RunCommand(e.ref, e.generation) !in cs
    ensures var q := ClaimLease(s, p.latest, e, a, p.latest, now);
            var step := DoClaim(p.latest, e, a, p.latest, now);
            && Inv(q) && KeepsCommands(s, q)
            && IsRunOf(s, [step]) && After(s, [step]) == q
            && (ClaimSucceeds(s, p.latest, e) <==> RunCommand(e.ref, e.generation) !in p.commands)
            && if ClaimSucceeds(s, p.latest, e)
               then && Grew(p, q, cs + {RunCommand(e.ref, e.generation)})
                    && IsNewRun(p, q, RunCommandFor(e, a, p.latest))
                    && |ActiveLeases(q)| == |ActiveLeases(s)| + 1
               else q == s
  {
    ClaimDuringPass(p, s, cs, e);
    RunSnoc(s, [], DoClaim(p.latest, e, a, p.latest, now));
    ClaimKeepsInv(s, p.latest, e, a, p.latest, now);
    if ClaimSucceeds(s, p.latest, e) {
      GrewByClaim(p, s, cs, p.latest, e, a, p.latest, now);
    }
  }

  lemma NoConflict(p: Project, e: Endpoint)
    requires Inv(p)
    ensures RunCommand(e.ref, e.generation) in p.commands ==>
              IsRun(p.commands[RunCommand(e.ref, e.generation)].command.action)
  {
    if RunCommand(e.ref, e.generation) in p.commands { assert CommandOk(p, RunCommand(e.ref, e.generation)); }
  }

  /** The claim with its listing: what is claimed is listed, exactly when the endpoint had no run command. */
  lemma ClaimListed(p: Project, s: Project, cs: set<CommandId>, claimed: seq<PhaseCommand>, e: Endpoint, a: Action,
                    now: int)
    requires Inv(p) && Inv(s) && Grew(p, s, cs) && ClaimsListed(p, s, cs, claimed) && IsRun(a)
    requires RunnableHere(p, e) && RunCommand(e.ref, e.generation) !in cs
    ensures var q, step := ClaimLease(s, p.latest, e, a, p.latest, now), DoClaim(p.latest, e, a, p.latest, now);
            && Inv(q) && IsRunOf(s, [step]) && After(s, [step]) == q
            && (ClaimSucceeds(s, p.latest, e) <==> RunCommand(e.ref, e.generation) !in p.commands)
            && if ClaimSucceeds(s, p.latest, e)
               then && Grew(p, q, cs + {RunCommand(e.ref, e.generation)})
                    && ClaimsListed(p, q, cs + {RunCommand(e.ref, e.generation)},
                                    claimed + [RunCommandFor(e, a, p.latest)])
               else Grew(p, q, cs) && ClaimsListed(p, q, cs, claimed)
  {
    ClaimPhase(p, s, cs, e, a, now);
    var q := ClaimLease(s, p.latest, e, a, p.latest, now);
    if ClaimSucceeds(s, p.latest, e) {
      ClaimsListedMore(p, s, q, cs, claimed, [RunCommandFor(e, a, p.latest)], cs + {RunCommand(e.ref, e.generation)});
    }
  }

  lemma NotePhase(p: Project, s: Project, cs: set<CommandId>, e: Endpoint)
    requires Inv(s) && Grew(p, s, cs)
    ensures var q := RejectEndpoint(s, e.ref, e.generation, e.binding, StaleCheckpoint);
            var step := DoRejectEndpoint(e.ref, e.generation, e.binding, StaleCheckpoint);
            && Inv(q) && Grew(p, q, cs) && KeepsCommands(s, q) && ActiveLeases(q) == ActiveLeases(s)
            && Noted(q, e) && IsRunOf(s, [step]) && After(s, [step]) == q
  {
    RunSnoc(s, [], DoRejectEndpoint(e.ref, e.generation, e.binding, StaleCheckpoint));
    RejectEndpointKeepsInv(s, e.ref, e.generation, e.binding, StaleCheckpoint);
    GrewByRejection(p, s, cs, e.ref, e.generation, e.binding, StaleCheckpoint);
    NotingNotes(s, e);
  }

  lemma NotingNotes(s: Project, e: Endpoint)
    ensures Noted(RejectEndpoint(s, e.ref, e.generation, e.binding, StaleCheckpoint), e)
  {
    var note := EndpointRejectionOf(e.ref, e.generation, e.binding, StaleCheckpoint);
    if !HasEvent(s, note.id) { assert (s.observations + [note])[|s.observations|] == note; }
  }

  ghost predicate SameGraph(p: Project, v: Project) {
    v.graph == p.graph && v.latest == p.latest && v.bindings == p.bindings
  }

  predicate Suppressed(c: PhaseCommand, suppressed: set<LeaseId>) {
    c.action != Stop && LeaseId(c.endpoint, c.generation) in suppressed
  }

  /** The stored, still unfinished stop command of a lease that must stop. */
  ghost predicate IsDeliverableStop(p: Project, v: Project, c: PhaseCommand) {
    && c.id.StopCommand? && c.action == Stop && ToStop(v, c.id.lease)
    && c.id in p.commands && p.commands[c.id].command == c && Live(p.commands[c.id])
  }

  /** The stop command of the lease is stored and, while unfinished, is in the list. */
  ghost predicate StopListed(p: Project, stops: seq<PhaseCommand>, l: LeaseId) {
    && StopCommand(l) in p.commands
    && (Live(p.commands[StopCommand(l)]) ==> p.commands[StopCommand(l)].command in stops)
  }

  lemma StopsKept(s: Project, s': Project, v: Project, done: set<LeaseId>, stops: seq<PhaseCommand>,
                  more: seq<PhaseCommand>)
    requires forall c <- stops :: IsDeliverableStop(s, v, c)
    requires forall c <- more :: IsDeliverableStop(s', v, c)
    requires forall l <- done :: ToStop(v, l) ==> StopListed(s, stops, l)
    requires KeepsRecords(s, s')
    ensures forall c <- stops + more :: IsDeliverableStop(s', v, c)
    ensures forall l <- done :: ToStop(v, l) ==> StopListed(s', stops + more, l)
    ensures forall l :: StopListed(s', more, l) ==> StopListed(s', stops + more, l)
  {
  }

  ghost predicate KeepsRecords(p: Project, q: Project) {
    forall c <- p.commands :: c in q.commands && q.commands[c] == p.commands[c]
  }

  /** Ensuring a stop command as one step of the phase. */
  lemma StopPhase(s: Project, rv: int, l: Lease)
    requires Inv(s) && l.ref in s.leases && SameIdentity(l, s.leases[l.ref])
    ensures var q := EnsureStopCommand(s, rv, l);
            && Inv(q) && KeepsRecords(s, q)
            && StopCommand(l.ref) in q.commands && q.commands[StopCommand(l.ref)].command.id == StopCommand(l.ref)
            && q.commands[StopCommand(l.ref)].command.action == Stop
            && IsRunOf(s, [DoEnsureStop(rv, l)]) && After(s, [DoEnsureStop(rv, l)]) == q
  {
    RunSnoc(s, [], DoEnsureStop(rv, l));
    EnsureStopKeepsInv(s, rv, l);
    assert CommandOk(EnsureStopCommand(s, rv, l), StopCommand(l.ref));
  }

  lemma ViewLease(p: Project, now: int, l: LeaseId)
    requires Inv(p) && l in ViewAt(p, now).leases
    ensures var x := ViewAt(p, now).leases[l];
            && l in p.leases && SameIdentity(x, p.leases[l]) && x.ref == l && l == LeaseId(x.endpoint, x.generation)
  {
    assert LeaseOk(p, l);
  }

  lemma ViewSameQueries(p: Project, now: int, l: LeaseId)
    requires Inv(p) && l in p.leases
    ensures var v := ViewAt(p, now);
            && l in v.leases && SameIdentity(v.leases[l], p.leases[l]) && v.leases[l].ref == l
            && HasCommandForLease(v, l) == HasCommandForLease(p, l)
            && HasRemoteObservation(v, v.leases[l]) == HasRemoteObservation(p, p.leases[l])
  {
    assert LeaseOk(p, l);
  }

  lemma RepairNothing(p: Project, rv: int)
    ensures RepairLeases(p, rv, {}) == p
  {
    var q := RepairLeases(p, rv, {});
    assert q.leases == p.leases;
    assert q.commands == p.commands;
  }

  /** One more lease repaired is one more store operation, or none. */
  lemma RepairedLeasesMore(p: Project, rv: int, done: set<LeaseId>, l: LeaseId)
    requires l !in done && l in p.leases && p.leases[l].active
    ensures var q, q' := RepairLeases(p, rv, done), RepairLeases(p, rv, done + {l});
            && l in q.leases && q.leases[l] == p.leases[l]
            && q'.leases == if Orphan(p, l) then q.leases[l := q.leases[l].(active := false)] else q.leases
  {
  }

  lemma RepairOneMore(p: Project, rv: int, done: set<LeaseId>, l: LeaseId)
    requires Inv(p) && l !in done && l in p.leases && p.leases[l].active
    ensures var q, q' := RepairLeases(p, rv, done), RepairLeases(p, rv, done + {l});
            && l in q.leases && q.leases[l] == p.leases[l]
            && (HasCommandForLease(p, l) ==> q' == q)
            && (!HasCommandForLease(p, l) && HasRemoteObservation(p, p.leases[l]) ==>
                  forall x: Lease :: SameIdentity(x, p.leases[l]) ==> q' == EnsureStopCommand(q, rv, x))
            && (Orphan(p, l) ==> ReleaseOrphan(q, l) == Ok(q'))
  {
    var q, q' := RepairLeases(p, rv, done), RepairLeases(p, rv, done + {l});
    assert LeaseOk(p, l);
    RepairedLeasesMore(p, rv, done, l);
    if !NeedsStop(p, l) {
      assert q'.commands == q.commands;
    }
    if !Orphan(p, l) && Unserved(p, l) {
      forall x: Lease | SameIdentity(x, p.leases[l])
        ensures q' == EnsureStopCommand(q, rv, x)
      {
        if NeedsStop(p, l) {
          assert StopCommand(l) !in q.commands;
          assert StopCommandFor(x, rv) == StopCommandFor(p.leases[l], rv);
          assert q'.commands == q.commands[StopCommand(l) := FreshRecord(StopCommandFor(x, rv))];
        } else {
          assert StopCommand(l) in q.commands;
        }
      }
    }
  }

  lemma RepairNoCommands(p: Project, q: Project)
    ensures RepairCommands(p, q, {}) == q
  {
    assert RepairCommands(p, q, {}).commands == q.commands;
  }

  lemma QuarantineOneMore(p: Project, q: Project, done: set<CommandId>, c: CommandId)
    requires c !in done && c in q.commands
    ensures var a, b := RepairCommands(p, q, done), RepairCommands(p, q, done + {c});
            if Dangling(p, c) then b == Quarantine(a, c) else b == a
  {
    var a, b := RepairCommands(p, q, done), RepairCommands(p, q, done + {c});
    if Dangling(p, c) {
      assert b.commands == a.commands[c := a.commands[c].(quarantined := true)];
    } else {
      assert b.commands == a.commands;
    }
  }
}
