/** The phases of one reconcile pass as functions of the state they start from: repairing lease and
    command pairs and issuing stops. Both loops of the runtime go through maps in no fixed order, so
    the functions are also the statement that the order does not matter.
 */
module CoordinationPass {
  import opened Coordination
  import opened CoordinationRuns

  // ---------------------------------------------------------------------------------------
  // Repair
  // ---------------------------------------------------------------------------------------

  /** An active lease none of whose commands can still be used. */
  predicate Unserved(p: Project, l: LeaseId) {
    l in p.leases && p.leases[l].active && !HasCommandForLease(p, l)
  }

  predicate Orphan(p: Project, l: LeaseId) {
    Unserved(p, l) && !HasRemoteObservation(p, p.leases[l])
  }

  predicate NeedsStop(p: Project, l: LeaseId) {
    Unserved(p, l) && HasRemoteObservation(p, p.leases[l]) && StopCommand(l) !in p.commands
  }

  /** A run command that is waiting for a lease it does not have. */
  predicate Dangling(p: Project, c: CommandId) {
    && c in p.commands && Live(p.commands[c]) && p.commands[c].command.action != Stop
    && !HasMatchingActiveLease(p, p.commands[c].command)
  }

  function RepairLease(p: Project, done: set<LeaseId>, l: LeaseId): Lease
    requires l in p.leases
  {
    if l in done && Orphan(p, l) then p.leases[l].(active := false) else p.leases[l]
  }

  /** Leases repaired so far: orphans released, observed ones given a stop command. */
  function RepairLeases(p: Project, revision: int, done: set<LeaseId>): Project {
    var stops := set l | l in done && NeedsStop(p, l) :: StopCommand(l);
    p.(leases := map l | l in p.leases :: RepairLease(p, done, l),
       commands := map c | c in p.commands.Keys + stops ::
         if c in p.commands then p.commands[c] else FreshRecord(StopCommandFor(p.leases[c.lease], revision)))
  }

  /** Commands repaired so far, judged against the leases as they were before the repair. */
  function RepairCommands(p: Project, q: Project, done: set<CommandId>): Project {
    q.(commands := map c | c in q.commands ::
         if c in done && Dangling(p, c) then q.commands[c].(quarantined := true) else q.commands[c])
  }

  function Repair(p: Project): Project {
    RepairCommands(p, RepairLeases(p, p.latest, ActiveLeases(p)), p.commands.Keys)
  }

  lemma RepairedCommand(p: Project, c: CommandId)
    requires c in p.commands
    ensures c in Repair(p).commands
    ensures Repair(p).commands[c] ==
            if Dangling(p, c) then p.commands[c].(quarantined := true) else p.commands[c]
  {
  }

  lemma NewCommandsAreStops(p: Project, c: CommandId)
    requires c in Repair(p).commands && c !in p.commands
    ensures c.StopCommand? && NeedsStop(p, c.lease)
    ensures Repair(p).commands[c] == FreshRecord(StopCommandFor(p.leases[c.lease], p.latest))
  {
  }

  /** After the repair every live run command has a matching active lease. */
  lemma RepairedCommandsHaveLeases(p: Project, c: CommandId)
    requires Inv(p) && c in Repair(p).commands
    requires Live(Repair(p).commands[c]) && Repair(p).commands[c].command.action != Stop
    ensures HasMatchingActiveLease(Repair(p), Repair(p).commands[c].command)
  {
    if c !in p.commands {
      NewCommandsAreStops(p, c);
    } else {
      RepairedCommand(p, c);
      assert HasMatchingActiveLease(p, p.commands[c].command);
      assert HasCommandForLease(p, p.commands[c].command.lease);
    }
  }

  /** After the repair, an active lease without a usable command is one with an observation of its own and
      whose stop command existed before the pass, quarantined or rejected. */
  lemma RepairedLeasesAreServed(p: Project, l: LeaseId)
    requires Inv(p) && l in Repair(p).leases && Repair(p).leases[l].active
    ensures || HasCommandForLease(Repair(p), l)
            || (&& HasRemoteObservation(p, p.leases[l]) && StopCommand(l) in p.commands
                && (p.commands[StopCommand(l)].quarantined || p.commands[StopCommand(l)].notExecutable))
  {
    var q := Repair(p);
    assert LeaseOk(p, l);
    if HasCommandForLease(p, l) {
      var c :| c in p.commands && p.commands[c].command.lease == l
               && !p.commands[c].quarantined && !p.commands[c].notExecutable;
      assert CommandOk(p, c);
      RepairedCommand(p, c);
      assert q.commands[c] == p.commands[c];
    } else if StopCommand(l) !in p.commands {
      assert NeedsStop(p, l);
      assert StopCommand(l) in RepairLeases(p, p.latest, ActiveLeases(p)).commands;
      NewCommandsAreStops(p, StopCommand(l));
      assert LeaseOk(p, l);
    } else {
      assert CommandOk(p, StopCommand(l));
    }
  }

  lemma RepairedShrinks(p: Project)
    ensures ActiveLeases(Repair(p)) <= ActiveLeases(p)
  {
  }

  // ---------------------------------------------------------------------------------------
  // Stops
  // ---------------------------------------------------------------------------------------

  predicate ToStop(v: Project, l: LeaseId) {
    l in v.leases && v.leases[l].active && MustStop(v, v.leases[l])
  }

  function StopIds(v: Project, done: set<LeaseId>): set<CommandId> {
    set l | l in done && ToStop(v, l) :: StopCommand(l)
  }

  /** Stops issued so far for the leases of view `v`. */
  function IssueStops(p: Project, v: Project, done: set<LeaseId>): Project {
    p.(commands := map c | c in p.commands.Keys + StopIds(v, done) ::
         if c in p.commands then p.commands[c] else FreshRecord(StopCommandFor(v.leases[c.lease], v.latest)))
  }

  // ---------------------------------------------------------------------------------------
  // Growth of the state while a pass issues stops and claims
  // ---------------------------------------------------------------------------------------

  predicate NewCommandOk(q: Project, c: CommandId) {
    && c in q.commands && q.commands[c] == FreshRecord(q.commands[c].command)
    && match c
       case NoCommand => false
       case StopCommand(l) => q.commands[c].command.action == Stop
       case RunCommand(r, g) => q.commands[c].command.endpoint == r && q.commands[c].command.generation == g
  }

  predicate NewLeaseOk(q: Project, cs: set<CommandId>, l: LeaseId) {
    && l.LeaseId? && l in q.leases && RunCommand(l.endpoint, l.generation) in cs
    && q.leases[l].endpoint == l.endpoint && q.leases[l].generation == l.generation && q.leases[l].active
  }

  /** `q` is `p` with the fresh commands `cs`, the leases of the run commands among them, and notes of
      refused dispatches. */
  predicate Grew(p: Project, q: Project, cs: set<CommandId>) {
    && q.graph == p.graph && q.latest == p.latest && q.bindings == p.bindings && q.history == p.history
    && q.commands.Keys == p.commands.Keys + cs && p.commands.Keys !! cs
    && (forall c <- p.commands :: q.commands[c] == p.commands[c])
    && (forall c <- cs :: NewCommandOk(q, c))
    && (forall l <- p.leases :: l in q.leases && q.leases[l] == p.leases[l])
    && (forall l <- q.leases :: l in p.leases || NewLeaseOk(q, cs, l))
    && p.observations <= q.observations
    && (forall o <- q.observations :: o in p.observations || o.kind == DispatchRejected)
  }

  lemma GrewSameLeases(p: Project, q: Project, cs: set<CommandId>, r: EndpointRef, g: int)
    requires Grew(p, q, cs) && RunCommand(r, g) !in cs
    ensures HasActiveLease(p, r, g) <==> HasActiveLease(q, r, g)
  {
    if HasActiveLease(p, r, g) {
      var l :| l in p.leases && p.leases[l].active && p.leases[l].endpoint == r && p.leases[l].generation == g;
      assert l in q.leases;
    }
  }

  lemma GrewSamePending(p: Project, q: Project, cs: set<CommandId>, r: EndpointRef, g: int)
    requires Grew(p, q, cs) && RunCommand(r, g) !in cs
    ensures HasPendingRunCommand(p, r, g) <==> HasPendingRunCommand(q, r, g)
  {
    if HasPendingRunCommand(p, r, g) {
      var c :| c in p.commands && Live(p.commands[c]) && p.commands[c].command.endpoint == r
               && p.commands[c].command.generation == g && IsRun(p.commands[c].command.action)
               && p.commands[c].observed == NoEvent;
      assert c in q.commands;
    }
    if HasPendingRunCommand(q, r, g) {
      var c :| c in q.commands && Live(q.commands[c]) && q.commands[c].command.endpoint == r
               && q.commands[c].command.generation == g && IsRun(q.commands[c].command.action)
               && q.commands[c].observed == NoEvent;
      assert c in p.commands || NewCommandOk(q, c);
    }
  }

  lemma GrewSameEnds(p: Project, q: Project, cs: set<CommandId>, r: EndpointRef, g: int)
    requires Grew(p, q, cs) && Inv(p) && Inv(q)
    ensures HasTerminalObservation(p, r, g) <==> HasTerminalObservation(q, r, g)
  {
    if HasTerminalObservation(p, r, g) {
      var o :| o in p.observations && TerminalWitness(p, o, r, g);
      assert TerminalWitness(q, o, r, g);
    }
    if HasTerminalObservation(q, r, g) {
      var o :| o in q.observations && TerminalWitness(q, o, r, g);
      assert o in p.observations;
      assert ObservationOk(p, o);
      assert TerminalWitness(p, o, r, g);
    }
  }

  /** What is runnable does not depend on stops, refused dispatches, or claims of other endpoints. */
  lemma GrewSameRunnable(p: Project, q: Project, cs: set<CommandId>, e: Endpoint)
    requires Grew(p, q, cs) && Inv(p) && Inv(q) && RunCommand(e.ref, e.generation) !in cs
    ensures IsRunnable(p, e) <==> IsRunnable(q, e)
  {
    GrewSameLeases(p, q, cs, e.ref, e.generation);
    GrewSamePending(p, q, cs, e.ref, e.generation);
    GrewSameEnds(p, q, cs, e.ref, e.generation);
  }

  lemma ViewSameRunnable(p: Project, now: int, e: Endpoint)
    ensures IsRunnable(ViewAt(p, now), e) <==> IsRunnable(p, e)
  {
    var v := ViewAt(p, now);
    assert HasActiveLease(v, e.ref, e.generation) <==> HasActiveLease(p, e.ref, e.generation) by {
      if HasActiveLease(p, e.ref, e.generation) {
        var l :| l in p.leases && p.leases[l].active && p.leases[l].endpoint == e.ref
                 && p.leases[l].generation == e.generation;
        assert l in v.leases;
      }
    }
    assert HasTerminalObservation(v, e.ref, e.generation) <==> HasTerminalObservation(p, e.ref, e.generation) by {
      forall o | o in p.observations
        ensures TerminalWitness(v, o, e.ref, e.generation) <==> TerminalWitness(p, o, e.ref, e.generation)
      {
      }
    }
    assert HasPendingRunCommand(v, e.ref, e.generation) <==> HasPendingRunCommand(p, e.ref, e.generation);
  }

  /** One more lease looked at is one more stop command ensured, or nothing. */
  lemma StopIdsMore(v: Project, done: set<LeaseId>, l: LeaseId)
    ensures StopIds(v, done + {l}) == StopIds(v, done) + (if ToStop(v, l) then {StopCommand(l)} else {})
  {
  }

  lemma IssueOneMore(p: Project, v: Project, done: set<LeaseId>, l: LeaseId)
    requires l in v.leases && v.leases[l].ref == l && l !in done
    ensures var q, q' := IssueStops(p, v, done), IssueStops(p, v, done + {l});
            if ToStop(v, l) then q' == EnsureStopCommand(q, v.latest, v.leases[l]) else q' == q
  {
    var q, q' := IssueStops(p, v, done), IssueStops(p, v, done + {l});
    StopIdsMore(v, done, l);
    if ToStop(v, l) && StopCommand(l) !in p.commands {
      assert q'.commands == q.commands[StopCommand(l) := FreshRecord(StopCommandFor(v.leases[l], v.latest))];
    } else {
      assert q'.commands == q.commands;
    }
  }

  lemma IssueNothing(p: Project, v: Project)
    ensures IssueStops(p, v, {}) == p
  {
    assert IssueStops(p, v, {}).commands == p.commands;
  }

  function IssuedIds(p: Project, v: Project): set<CommandId> {
    IssueStops(p, v, ActiveLeases(v)).commands.Keys - p.commands.Keys
  }

  lemma IssuedGrew(p: Project, v: Project)
    ensures Grew(p, IssueStops(p, v, ActiveLeases(v)), IssuedIds(p, v))
    ensures forall c <- IssuedIds(p, v) :: c.StopCommand?
    ensures forall l :: ToStop(v, l) ==> StopCommand(l) in IssueStops(p, v, ActiveLeases(v)).commands
  {
  }

  lemma GrewByRejection(p: Project, q: Project, cs: set<CommandId>, r: EndpointRef, g: int, b: BindingRef,
                        code: ErrorCode)
    requires Grew(p, q, cs)
    ensures Grew(p, RejectEndpoint(q, r, g, b, code), cs)
  {
  }

  lemma GrewByClaim(p: Project, q: Project, cs: set<CommandId>, rv: int, e: Endpoint, a: Action, cause: int, now: int)
    requires Grew(p, q, cs) && Inv(q) && ClaimSucceeds(q, rv, e)
    ensures Grew(p, ClaimLease(q, rv, e, a, cause, now), cs + {RunCommand(e.ref, e.generation)})
    ensures LeaseId(e.ref, e.generation) !in q.leases
    ensures ActiveLeases(ClaimLease(q, rv, e, a, cause, now)) == ActiveLeases(q) + {LeaseId(e.ref, e.generation)}
  {
    var l := LeaseId(e.ref, e.generation);
    assert l in q.leases ==> LeaseOk(q, l);
    var q', cs' := ClaimLease(q, rv, e, a, cause, now), cs + {RunCommand(e.ref, e.generation)};
    forall c | c in cs'
      ensures NewCommandOk(q', c)
    {
      if c in cs {
        assert NewCommandOk(q, c);
      }
    }
    forall x | x in q'.leases
      ensures x in p.leases || NewLeaseOk(q', cs', x)
    {
      if x != l {
        assert x in p.leases || NewLeaseOk(q, cs, x);
      }
    }
  }

  /** A runnable endpoint of the current graph. */
  predicate RunnableHere(p: Project, e: Endpoint) {
    e.ref in p.graph.endpoints && p.graph.endpoints[e.ref] == e && IsRunnable(p, e)
  }

  /** A runnable endpoint that has never been claimed and whose binding may be started. */
  predicate Claimable(p: Project, e: Endpoint) {
    && RunnableHere(p, e)
    && RunCommand(e.ref, e.generation) !in p.commands
    && !(e.binding in p.bindings && p.bindings[e.binding].nonResumable)
  }

  /** A claim made during the pass succeeds exactly for the endpoints that were claimable when it began. */
  lemma ClaimDuringPass(p: Project, q: Project, cs: set<CommandId>, e: Endpoint)
    requires Inv(p) && Inv(q) && Grew(p, q, cs) && RunCommand(e.ref, e.generation) !in cs
    requires RunnableHere(p, e)
    ensures ClaimSucceeds(q, p.latest, e) <==> RunCommand(e.ref, e.generation) !in p.commands
  {
    GrewSameRunnable(p, q, cs, e);
    if LeaseId(e.ref, e.generation) in q.leases {
      assert LeaseOk(q, LeaseId(e.ref, e.generation));
    }
  }

  /** Still to be delivered: not finished, not out of service, and if a run, not yet seen to start. */
  predicate IsPending(r: CommandRecord) {
    Live(r) && !(IsRun(r.command.action) && r.observed != NoEvent)
  }
}
