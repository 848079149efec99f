/** What makes an endpoint runnable and a lease stop, read off the stored records: the conditions of the runtime,
    which asks through searches of its view, are stated here on the graph and on the one lease and the two commands
    an endpoint generation can have.
 */
module CoordinationReady {
  import opened Coordination
  import opened CoordinationRuns
  import opened CoordinationPass

  // ---------------------------------------------------------------------------------------
  // Runnable endpoints
  // ---------------------------------------------------------------------------------------

  /** The signal an edge waits for has been given. */
  predicate Signalled(g: Graph, e: Edge) {
    if e.signal == TaskIsDone then e.from.task in g.tasks && g.tasks[e.from.task] == TaskDone
    else e.from in g.endpoints && g.endpoints[e.from].state == Satisfied
  }

  /** The graph lets the endpoint start: its task is active; it is pending, enabled, bound and specified; the phase
      before it in its task is satisfied; every edge it needs to start is signalled, and every blocker on its start is
      resolved or obsolete. */
  predicate Ready(g: Graph, r: EndpointRef) {
    && r.task in g.tasks && g.tasks[r.task] == TaskActive
    && r in g.endpoints && g.endpoints[r].state == Pending && g.endpoints[r].policy == Enabled
    && g.endpoints[r].binding != "" && g.endpoints[r].spec != ""
    && (r.endpoint == Execute ==>
          EndpointRef(r.task, Plan) in g.endpoints && g.endpoints[EndpointRef(r.task, Plan)].state == Satisfied)
    && (r.endpoint == Verify ==>
          EndpointRef(r.task, Execute) in g.endpoints && g.endpoints[EndpointRef(r.task, Execute)].state == Satisfied)
    && (forall e <- g.edges :: e.to == r && e.requiredBy != ByCompletion ==> Signalled(g, e))
    && (forall b <- g.blockers :: g.blockers[b].target == r && g.blockers[b].requiredBy != ByCompletion ==>
          g.blockers[b].state != BlockerActive && g.blockers[b].state != BlockerDenied)
  }

  /** The folded end of a command, by which it was completed. */
  predicate EndOf(p: Project, c: CommandId, o: Observation) {
    && o.folded && o.command == c && (o.kind == Output || o.kind == Failed || o.kind == Stopped)
    && c in p.commands && p.commands[c].completed == o.id
  }

  /** The generation was never claimed; or its lease is released, its run command is out of the way, and neither that
      nor its stop command was completed by an end that was folded. */
  predicate Unoccupied(p: Project, r: EndpointRef, g: int) {
    var run, stop, lease := RunCommand(r, g), StopCommand(LeaseId(r, g)), LeaseId(r, g);
    run in p.commands ==>
      && !(lease in p.leases && p.leases[lease].active)
      && (p.commands[run].completed != NoEvent || p.commands[run].quarantined || p.commands[run].notExecutable
          || p.commands[run].observed != NoEvent)
      && forall o <- p.observations :: !EndOf(p, run, o) && !EndOf(p, stop, o)
  }

  /** Runnable means ready in the graph, whatever the store holds. */
  lemma RunnableIsReady(p: Project, e: Endpoint)
    requires e.ref in p.graph.endpoints && p.graph.endpoints[e.ref] == e && IsRunnable(p, e)
    ensures Ready(p.graph, e.ref)
  {
  }

  lemma OneLease(p: Project, r: EndpointRef, g: int)
    requires Inv(p)
    ensures HasActiveLease(p, r, g) <==> LeaseId(r, g) in p.leases && p.leases[LeaseId(r, g)].active
  {
    if HasActiveLease(p, r, g) {
      var l :| l in p.leases && p.leases[l].active && p.leases[l].endpoint == r && p.leases[l].generation == g;
      assert LeaseOk(p, l);
    }
    if LeaseId(r, g) in p.leases { assert LeaseOk(p, LeaseId(r, g)); }
  }

  lemma OneRun(p: Project, r: EndpointRef, g: int)
    requires Inv(p)
    ensures HasPendingRunCommand(p, r, g) <==>
            RunCommand(r, g) in p.commands && Live(p.commands[RunCommand(r, g)])
            && p.commands[RunCommand(r, g)].observed == NoEvent
  {
    if HasPendingRunCommand(p, r, g) {
      var c :| c in p.commands && Live(p.commands[c]) && p.commands[c].command.endpoint == r
               && p.commands[c].command.generation == g && IsRun(p.commands[c].command.action)
               && p.commands[c].observed == NoEvent;
      assert CommandOk(p, c);
    }
    if RunCommand(r, g) in p.commands { assert CommandOk(p, RunCommand(r, g)); }
  }

  lemma WitnessIsEnd(p: Project, o: Observation, r: EndpointRef, g: int)
    requires Inv(p) && o in p.observations
    ensures TerminalWitness(p, o, r, g) <==>
            EndOf(p, RunCommand(r, g), o) || EndOf(p, StopCommand(LeaseId(r, g)), o)
  {
    assert ObservationOk(p, o);
    if o.command in p.commands {
      assert CommandOk(p, o.command);
      var l := p.commands[o.command].command.lease;
      assert LeaseOk(p, l);
    }
  }

  lemma OneEnd(p: Project, r: EndpointRef, g: int)
    requires Inv(p)
    ensures HasTerminalObservation(p, r, g) <==>
            exists o <- p.observations :: EndOf(p, RunCommand(r, g), o) || EndOf(p, StopCommand(LeaseId(r, g)), o)
  {
    forall o | o in p.observations
      ensures TerminalWitness(p, o, r, g) <==>
              EndOf(p, RunCommand(r, g), o) || EndOf(p, StopCommand(LeaseId(r, g)), o)
    {
      WitnessIsEnd(p, o, r, g);
    }
  }

  /** Without a run command there is no lease of the generation, and no end. */
  lemma NeverClaimedIsUnoccupied(p: Project, r: EndpointRef, g: int)
    requires Inv(p) && RunCommand(r, g) !in p.commands
    ensures LeaseId(r, g) !in p.leases && StopCommand(LeaseId(r, g)) !in p.commands
  {
    InvPairs(p, r, g);
    assert StopCommand(LeaseId(r, g)) in p.commands ==> CommandOk(p, StopCommand(LeaseId(r, g)));
  }

  /** In every state that satisfies the invariant, an endpoint is runnable exactly when the graph lets it start and
      nothing in the store occupies its generation. */
  lemma RunnableIff(p: Project, r: EndpointRef)
    requires Inv(p) && r in p.graph.endpoints
    ensures IsRunnable(p, p.graph.endpoints[r]) <==>
            Ready(p.graph, r) && Unoccupied(p, r, p.graph.endpoints[r].generation)
  {
    var e := p.graph.endpoints[r];
    assert e.ref == r;
    OneLease(p, r, e.generation);
    OneRun(p, r, e.generation);
    OneEnd(p, r, e.generation);
    if RunCommand(r, e.generation) !in p.commands { NeverClaimedIsUnoccupied(p, r, e.generation); }
  }

  // ---------------------------------------------------------------------------------------
  // Claims
  // ---------------------------------------------------------------------------------------

  /** The claim of a generation that was never claimed takes it exactly at the latest revision, for the stored
      generation of an endpoint the graph lets start. Any other claim changes nothing. */
  lemma ClaimTakesIff(p: Project, rv: int, e: Endpoint, a: Action, cause: int, now: int)
    requires Inv(p)
    ensures var q, run := ClaimLease(p, rv, e, a, cause, now), RunCommand(e.ref, e.generation);
            && (run in p.commands ==> q == p)
            && (run !in p.commands ==>
                  (q != p <==> rv == p.latest && Ready(p.graph, e.ref)
                               && p.graph.endpoints[e.ref].generation == e.generation)
                  && (q != p <==> run in q.commands))
  {
    var run := RunCommand(e.ref, e.generation);
    if run !in p.commands {
      NeverClaimedIsUnoccupied(p, e.ref, e.generation);
      if e.ref in p.graph.endpoints { RunnableIff(p, e.ref); }
    }
  }

  /** What a claim writes: a run command that nobody has answered, and beside it a lease of the same endpoint,
      generation and binding that is active and expires in an hour. */
  lemma ClaimWrites(p: Project, rv: int, e: Endpoint, a: Action, cause: int, now: int)
    requires ClaimLease(p, rv, e, a, cause, now) != p
    ensures var q, run, lease :=
              ClaimLease(p, rv, e, a, cause, now), RunCommand(e.ref, e.generation), LeaseId(e.ref, e.generation);
            && q == p.(commands := q.commands, leases := q.leases)
            && q.commands == p.commands[run := CommandRecord(
                 PhaseCommand(run, e.ref, e.generation, e.binding, lease, a, cause),
                 false, NoEvent, NoEvent, false, false, false)]
            && q.leases == p.leases[lease := Lease(lease, e.ref, e.generation, e.binding, true, now + 3600, false)]
  {
  }

  /** That an endpoint could not be dispatched is noted once for each code, as something already folded that belongs to
      no command and no lease. */
  lemma EndpointIsNoted(p: Project, r: EndpointRef, g: int, b: BindingRef, code: ErrorCode)
    ensures var q, id := RejectEndpoint(p, r, g, b, code), EndpointRejection(r, g, code);
            q == if exists o <- p.observations :: o.id == id then p
                 else p.(observations := p.observations
                           + [Observation(id, DispatchRejected, NoCommand, r, g, b, NoLease, "", false, code, true)])
  {
  }

  /** Only a claim that takes its endpoint stores a run command. */
  lemma OnlyClaimsStoreRuns(p: Project, s: Step, r: EndpointRef, g: int)
    requires RunCommand(r, g) !in p.commands && RunCommand(r, g) in Apply(p, s).commands
    ensures s.DoClaim? && s.endpoint.ref == r && s.endpoint.generation == g
  {
  }

  /** In every run, whichever step first stores the run command of an endpoint generation: just before it, that
      generation was the one in the graph and the graph let the endpoint start; just after it, the command is beside
      an active lease. */
  lemma RunsOnlyWhatIsReady(p: Project, steps: seq<Step>, i: nat, r: EndpointRef, g: int)
    requires Inv(p) && IsRunOf(p, steps) && i < |steps|
    requires RunCommand(r, g) !in After(p, steps[..i]).commands
    requires RunCommand(r, g) in After(p, steps[..i + 1]).commands
    ensures var before, after := After(p, steps[..i]), After(p, steps[..i + 1]);
            && Ready(before.graph, r) && before.graph.endpoints[r].generation == g
            && after.graph == before.graph && after.latest == before.latest
            && LeaseId(r, g) !in before.leases && LeaseId(r, g) in after.leases && after.leases[LeaseId(r, g)].active
  {
    Between(p, steps, i, i + 1);
    NextState(p, steps, i);
    var before, s := After(p, steps[..i]), steps[i];
    OnlyClaimsStoreRuns(before, s, r, g);
    ClaimTakesIff(before, s.claimRevision, s.endpoint, s.action, s.cause, s.now);
    ClaimWrites(before, s.claimRevision, s.endpoint, s.action, s.cause, s.now);
    NeverClaimedIsUnoccupied(before, r, g);
  }

  /** So no verification is started before its task's execution is satisfied, and no execution before the plan. */
  lemma PhasesStartInOrder(p: Project, steps: seq<Step>, i: nat, t: TaskId, g: int)
    requires Inv(p) && IsRunOf(p, steps) && i < |steps|
    ensures var before, after := After(p, steps[..i]), After(p, steps[..i + 1]);
            forall n :: RunCommand(EndpointRef(t, n), g) !in before.commands
                        && RunCommand(EndpointRef(t, n), g) in after.commands && n != Plan ==>
              var previous := EndpointRef(t, if n == Verify then Execute else Plan);
              previous in before.graph.endpoints && before.graph.endpoints[previous].state == Satisfied
  {
    var before, after := After(p, steps[..i]), After(p, steps[..i + 1]);
    forall n | RunCommand(EndpointRef(t, n), g) !in before.commands
               && RunCommand(EndpointRef(t, n), g) in after.commands
      ensures Ready(before.graph, EndpointRef(t, n))
    {
      RunsOnlyWhatIsReady(p, steps, i, EndpointRef(t, n), g);
    }
  }

  /** How a binding is taken up: from its checkpoint when it has one. */
  function ActionFor(p: Project, b: BindingRef): Action {
    if b in p.bindings && p.bindings[b].checkpoint != "" then Resume else Start
  }

  /** A binding that was stopped without a checkpoint and cannot be started again. */
  predicate Stale(p: Project, b: BindingRef) {
    b in p.bindings && p.bindings[b].nonResumable
  }

  /** The command that claims an endpoint of the graph: for its stored generation and binding, resuming exactly when
      that binding has a checkpoint, caused by the revision it was decided at. */
  predicate IsClaim(p: Project, c: PhaseCommand) {
    && Ready(p.graph, c.endpoint)
    && var e := p.graph.endpoints[c.endpoint];
       && c.generation == e.generation && c.binding == e.binding && !Stale(p, e.binding)
       && c.id == RunCommand(c.endpoint, c.generation) && c.lease == LeaseId(c.endpoint, c.generation)
       && c.action == ActionFor(p, e.binding) && c.cause == p.latest
  }

  lemma ClaimableIsClaim(p: Project, e: Endpoint)
    requires Claimable(p, e)
    ensures IsClaim(p, RunCommandFor(e, ActionFor(p, e.binding), p.latest))
  {
    RunnableIsReady(p, e);
  }

  // ---------------------------------------------------------------------------------------
  // Stops
  // ---------------------------------------------------------------------------------------

  /** The graph has no use for the lease any more, or its time is up. */
  predicate Outdated(p: Project, l: LeaseId, now: int)
    requires l in p.leases
  {
    var x, g := p.leases[l], p.graph;
    || x.endpoint.task !in g.tasks || g.tasks[x.endpoint.task] in {TaskDone, TaskCanceled, TaskFailed}
    || x.endpoint !in g.endpoints || g.endpoints[x.endpoint].policy != Enabled
    || g.endpoints[x.endpoint].generation != x.generation || g.endpoints[x.endpoint].binding != x.binding
    || x.expired || x.expiresAt == 0 || now >= x.expiresAt
  }

  /** A command the controller still has to be told of: not finished, not out of service, and no run that was seen to
      start. */
  predicate Awaiting(r: CommandRecord) {
    r.completed == NoEvent && !r.quarantined && !r.notExecutable && (r.command.action == Stop || r.observed == NoEvent)
  }

  /** A pass has to stop exactly the active leases that are outdated at its time. */
  lemma StopsIff(p: Project, l: LeaseId, now: int)
    ensures ToStop(ViewAt(p, now), l) <==> l in p.leases && p.leases[l].active && Outdated(p, l, now)
  {
  }

  /** Of the active leases exactly those are given a stop command, if they have none, and it speaks of the lease as it
      is stored. */
  lemma IssuesStopIff(p: Project, now: int, l: LeaseId)
    requires l in p.leases && p.leases[l].active && p.leases[l].ref == l
    ensures var v := ViewAt(p, now);
            var s, stop, x := IssueStops(p, v, ActiveLeases(v)), StopCommand(l), p.leases[l];
            && (stop in s.commands <==> stop in p.commands || Outdated(p, l, now))
            && (stop in s.commands && stop !in p.commands ==>
                  s.commands[stop] == CommandRecord(
                    PhaseCommand(StopCommand(l), x.endpoint, x.generation, x.binding, l, Stop, p.latest),
                    false, NoEvent, NoEvent, false, false, false))
  {
    StopsIff(p, l, now);
    var v := ViewAt(p, now);
    assert StopCommand(l) in StopIds(v, ActiveLeases(v)) <==> ToStop(v, l);
    assert v.leases[l] == p.leases[l].(expired := v.leases[l].expired);
  }

  // ---------------------------------------------------------------------------------------
  // Repair
  // ---------------------------------------------------------------------------------------

  /** The command is stored and neither quarantined nor rejected. */
  predicate Usable(p: Project, c: CommandId) {
    c in p.commands && !p.commands[c].quarantined && !p.commands[c].notExecutable
  }

  /** Something was heard of the execution under this lease. */
  predicate HeardOf(p: Project, l: LeaseId)
    requires l in p.leases
  {
    var x := p.leases[l];
    !forall o <- p.observations ::
      o.lease != x.ref || o.endpoint != x.endpoint || o.generation != x.generation || o.binding != x.binding
  }

  lemma CommandsOfLease(p: Project, l: LeaseId)
    requires Inv(p) && l in p.leases
    ensures l.LeaseId?
    ensures HasCommandForLease(p, l) <==> Usable(p, RunCommand(l.endpoint, l.generation)) || Usable(p, StopCommand(l))
  {
    assert LeaseOk(p, l);
    var run, stop := RunCommand(l.endpoint, l.generation), StopCommand(l);
    assert CommandOk(p, run) && (stop in p.commands ==> CommandOk(p, stop));
    if HasCommandForLease(p, l) {
      var c :| c in p.commands && p.commands[c].command.lease == l && !p.commands[c].quarantined
               && !p.commands[c].notExecutable;
      assert CommandOk(p, c);
    }
  }

  /** What the repair does with an active lease, by its run and its stop command: while one of them can still be used,
      nothing; if neither can, it is released when nothing was ever heard of it, and otherwise gets a stop command
      unless it has one. */
  lemma RepairOfLease(p: Project, l: LeaseId)
    requires Inv(p) && l in p.leases && p.leases[l].active
    ensures l.LeaseId?
    ensures var q, x := Repair(p), p.leases[l];
            var served := Usable(p, RunCommand(l.endpoint, l.generation)) || Usable(p, StopCommand(l));
            && l in q.leases && q.leases[l] == x.(active := served || HeardOf(p, l))
            && (StopCommand(l) in q.commands <==> StopCommand(l) in p.commands || (!served && HeardOf(p, l)))
            && (StopCommand(l) in q.commands && StopCommand(l) !in p.commands ==>
                  q.commands[StopCommand(l)] == CommandRecord(
                    PhaseCommand(StopCommand(l), x.endpoint, x.generation, x.binding, l, Stop, p.latest),
                    false, NoEvent, NoEvent, false, false, false))
  {
    assert LeaseOk(p, l);
    CommandsOfLease(p, l);
    assert HasRemoteObservation(p, p.leases[l]) <==> HeardOf(p, l);
    if StopCommand(l) !in p.commands {
      if NeedsStop(p, l) {
        assert StopCommand(l) in RepairLeases(p, p.latest, ActiveLeases(p)).commands;
      }
      if StopCommand(l) in Repair(p).commands { NewCommandsAreStops(p, StopCommand(l)); }
    }
  }

  /** And with a command: quarantined exactly when it is a run that is unfinished and in service although its lease is
      released; otherwise left as it is. */
  lemma RepairOfCommand(p: Project, c: CommandId)
    requires Inv(p) && c in p.commands
    ensures var r, q := p.commands[c], Repair(p);
            && r.command.lease in p.leases && c in q.commands
            && q.commands[c] == if r.command.action != Stop && r.completed == NoEvent && !r.notExecutable
                                   && !p.leases[r.command.lease].active
                                then r.(quarantined := true) else r
  {
    assert CommandOk(p, c);
    RepairedCommand(p, c);
    assert p.commands[c].quarantined ==> p.commands[c].(quarantined := true) == p.commands[c];
  }

  // ---------------------------------------------------------------------------------------
  // What was seen to start is not delivered again
  // ---------------------------------------------------------------------------------------

  lemma StepKeepsObserved(p: Project, s: Step, c: CommandId)
    requires Inv(p) && Allowed(p, s) && c in p.commands && p.commands[c].observed != NoEvent
    ensures c in Apply(p, s).commands && Apply(p, s).commands[c].observed != NoEvent
  {
    if s.DoFold? { assert ObservationOk(p, s.observation); }
  }

  lemma {:induction false} ObservedNeverAwaits(p: Project, steps: seq<Step>, c: CommandId)
    requires Inv(p) && IsRunOf(p, steps) && c in p.commands && p.commands[c].observed != NoEvent
    requires p.commands[c].command.action != Stop
    ensures c in After(p, steps).commands && !Awaiting(After(p, steps).commands[c])
    decreases |steps|
  {
    if steps != [] {
      StepKeepsObserved(p, steps[0], c);
      StepKeepsInv(p, steps[0]);
      ObservedNeverAwaits(Apply(p, steps[0]), steps[1..], c);
    }
  }

  /** Once a reported start has been folded, no later state of the run has that command waiting for delivery. */
  lemma StartedNeverAwaits(p: Project, o: Observation, steps: seq<Step>)
    requires Inv(p) && Allowed(p, DoFold(o)) && o.kind == Started && FoldOne(p, o).Ok?
    requires IsRunOf(FoldOne(p, o).value, steps)
    ensures var q := After(FoldOne(p, o).value, steps); o.command in q.commands && !Awaiting(q.commands[o.command])
  {
    assert ObservationOk(p, o);
    FoldKeepsInv(p, o);
    ObservedNeverAwaits(FoldOne(p, o).value, steps, o.command);
  }
}
