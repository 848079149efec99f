/** The in-memory coordination store: its fields, and each store method as an update of them that is
    tied to the operation of module Coordination it performs.
 */
module CoordinationStore {
  import opened Coordination

  lemma {:induction false} MarkFoldedFirst(os: seq<Observation>, id: EventId, i: nat)
    requires i <= |os| && forall j :: 0 <= j < i ==> os[j].id != id
    requires i < |os| ==> os[i].id == id
    ensures MarkFolded(os, id) == if i < |os| then os[i := os[i].(folded := true)] else os
  {
    if i > 0 {
      MarkFoldedFirst(os[1..], id, i - 1);
    }
  }

  /** The command starts or resumes that generation of the endpoint. */
  predicate RunsGeneration(c: PhaseCommand, r: EndpointRef, g: int) {
    c.endpoint == r && c.generation == g && (c.action == Start || c.action == Resume)
  }

  class MemoryStore {
    var latest: int
    var history: map<int, Graph>
    var graph: Graph
    var commands: map<CommandId, CommandRecord>
    var leases: map<LeaseId, Lease>
    var observations: seq<Observation>
    var bindings: map<BindingRef, BindingInfo>

    ghost function State(): Project
      reads this
    {
      Project(latest, history, graph, commands, leases, observations, bindings)
    }

    constructor ()
      ensures State() == INITIAL
    {
      latest, graph, history := 1, EMPTY_GRAPH, map[1 := EMPTY_GRAPH];
      commands, leases, observations, bindings := map[], map[], [], map[];
    }

    method LoadRuntimeView(now: int) returns (view: Project)
      ensures view == ViewAt(State(), now)
    {
      var judged: map<LeaseId, Lease> := map[];
      var todo := leases.Keys;
      while todo != {}
        invariant todo <= leases.Keys
        invariant judged.Keys == leases.Keys - todo
        invariant forall l <- judged ::
          judged[l] == leases[l].(
            expired := leases[l].expired || leases[l].expiresAt == 0 || leases[l].expiresAt <= now)
        decreases |todo|
      {
        var l :| l in todo;
        var lease := leases[l];
        judged := judged[l := lease.(expired := lease.expired || lease.expiresAt == 0 || lease.expiresAt <= now)];
        todo := todo - {l};
      }
      view := Project(latest, history, graph, commands, judged, observations, bindings);
    }

    /** The matching checks shared by every operation on an observation. */
    method CheckObservationLease(o: Observation) returns (code: ErrorCode)
      requires o.command in commands
      ensures code == LeaseCheck(State(), o)
    {
      var c := commands[o.command].command;
      if o.command == NoCommand || o.lease == NoLease || o.endpoint.task == "" || o.generation <= 0 || o.binding == "" {
        return InvalidArgument;
      }
      if c.endpoint != o.endpoint || c.generation != o.generation || c.binding != o.binding || c.lease != o.lease {
        return StaleCommand;
      }
      if o.lease !in leases {
        return LeaseConflict;
      }
      var l := leases[o.lease];
      if l.endpoint != o.endpoint || l.generation != o.generation || l.binding != o.binding {
        return LeaseConflict;
      }
      return NoError;
    }

    /** Sets the folded flag of the first observation with this id. */
    method MarkObservationFolded(id: EventId)
      modifies this`observations
      ensures observations == MarkFolded(old(observations), id)
    {
      var i := 0;
      while i < |observations|
        invariant 0 <= i <= |observations|
        invariant observations == old(observations)
        invariant forall j :: 0 <= j < i ==> observations[j].id != id
      {
        if observations[i].id == id {
          MarkFoldedFirst(observations, id, i);
          observations := observations[i := observations[i].(folded := true)];
          return;
        }
        i := i + 1;
      }
      MarkFoldedFirst(observations, id, i);
    }

    method MarkObserved(o: Observation) returns (code: ErrorCode)
      modifies this
      ensures match MarkCommandObserved(old(State()), o)
              case Ok(q) => code == NoError && State() == q
              case Err(e) => code == e && State() == old(State())
    {
      if o.command !in commands {
        return StaleCommand;
      }
      code := CheckObservationLease(o);
      if code != NoError {
        return;
      }
      var r := commands[o.command];
      if r.command.action != Start && r.command.action != Resume {
        return StaleCommand;
      }
      if !leases[o.lease].active {
        return LeaseConflict;
      }
      commands := commands[o.command := r.(observed := o.id)];
      MarkObservationFolded(o.id);
    }

    method CompleteCommandAndReleaseLease(o: Observation) returns (code: ErrorCode)
      modifies this
      ensures match CompleteAndRelease(old(State()), o)
              case Ok(q) => code == NoError && State() == q
              case Err(e) => code == e && State() == old(State())
    {
      if o.command !in commands {
        return StaleCommand;
      }
      code := CheckObservationLease(o);
      if code != NoError {
        return;
      }
      var r := commands[o.command];
      if o.kind == Stopped {
        if r.command.action != Stop {
          return StaleCommand;
        }
      } else if r.command.action != Start && r.command.action != Resume {
        return StaleCommand;
      }
      commands := commands[o.command := r.(completed := o.id)];
      leases := leases[o.lease := leases[o.lease].(active := false)];
      MarkObservationFolded(o.id);
    }

    method ReleaseOrphanLease(l: LeaseId) returns (code: ErrorCode)
      modifies this
      ensures match ReleaseOrphan(old(State()), l)
              case Ok(q) => code == NoError && State() == q
              case Err(e) => code == e && State() == old(State())
    {
      if l !in leases {
        return NotFound;
      }
      leases := leases[l := leases[l].(active := false)];
      code := NoError;
    }

    method GetOrCreateStopCommand(revision: int, l: Lease) returns (command: PhaseCommand, deliverable: bool)
      modifies this
      ensures State() == EnsureStopCommand(old(State()), revision, l)
      ensures StopCommand(l.ref) in commands && command == commands[StopCommand(l.ref)].command
      ensures deliverable == Live(commands[StopCommand(l.ref)])
    {
      var id := StopCommand(l.ref);
      if id in commands {
        var r := commands[id];
        return r.command, r.completed == NoEvent && !r.quarantined && !r.notExecutable;
      }
      command := PhaseCommand(id, l.endpoint, l.generation, l.binding, l.ref, Stop, revision);
      commands := commands[id := FreshRecord(command)];
      deliverable := true;
    }

    method ClaimLeaseAndAppendCommand(revision: int, e: Endpoint, action: Action, cause: int, now: int)
      returns (command: PhaseCommand, claimed: bool, code: ErrorCode)
      modifies this
      ensures State() == ClaimLease(old(State()), revision, e, action, cause, now)
      ensures claimed == ClaimSucceeds(old(State()), revision, e)
      ensures claimed ==> command == RunCommandFor(e, action, cause)
      ensures code == NoError || code == CommandConflict
      ensures code == CommandConflict ==>
                && RunCommand(e.ref, e.generation) in commands
                && !IsRun(commands[RunCommand(e.ref, e.generation)].command.action)
    {
      var none := PhaseCommand(NoCommand, e.ref, 0, "", NoLease, action, 0);
      if revision == LATEST_READ || revision != latest {
        return none, false, NoError;
      }
      var view := Project(latest, history, graph, commands, leases, observations, bindings);
      if !EndpointRunnableNow(view, e.ref, e.generation) {
        return none, false, NoError;
      }
      var ref := LeaseId(e.ref, e.generation);
      if ref in leases && leases[ref].active {
        var existing := ExistingRunCommand(e.ref, e.generation, none);
        return existing, false, NoError;
      }
      var id := RunCommand(e.ref, e.generation);
      if id in commands {
        var r := commands[id];
        if r.command.action != Start && r.command.action != Resume {
          return none, false, CommandConflict;
        }
        return r.command, false, NoError;
      }
      command := PhaseCommand(id, e.ref, e.generation, e.binding, ref, action, cause);
      leases := leases[ref := Lease(ref, e.ref, e.generation, e.binding, true, now + LEASE_TTL, false)];
      commands := commands[id := FreshRecord(command)];
      claimed, code := true, NoError;
    }

    method ExistingRunCommand(r: EndpointRef, g: int, none: PhaseCommand) returns (command: PhaseCommand)
      ensures if exists c <- commands :: RunsGeneration(commands[c].command, r, g)
              then RunsGeneration(command, r, g) && exists c <- commands :: command == commands[c].command
              else command == none
    {
      var todo := commands.Keys;
      while todo != {}
        invariant todo <= commands.Keys
        invariant forall c <- commands.Keys - todo :: !RunsGeneration(commands[c].command, r, g)
        decreases |todo|
      {
        var c :| c in todo;
        var k := commands[c].command;
        if RunsGeneration(k, r, g) { return k; }
        todo := todo - {c};
      }
      command := none;
    }

    method MarkCommandAccepted(c: CommandId)
      modifies this`commands
      ensures State() == MarkAccepted(old(State()), c)
    {
      if c in commands {
        commands := commands[c := commands[c].(accepted := true, retryScheduled := false)];
      }
    }

    method ScheduleCommandRetry(c: CommandId)
      modifies this`commands
      ensures State() == ScheduleRetry(old(State()), c)
    {
      if c in commands {
        commands := commands[c := commands[c].(retryScheduled := true)];
      }
    }

    method QuarantineCommand(c: CommandId)
      modifies this`commands
      ensures State() == Quarantine(old(State()), c)
    {
      if c in commands {
        commands := commands[c := commands[c].(quarantined := true)];
      }
    }

    /** Whether an observation with this id has been recorded. */
    method FindEvent(id: EventId) returns (found: bool)
      ensures found == HasEvent(State(), id)
    {
      var i := 0;
      while i < |observations|
        invariant 0 <= i <= |observations|
        invariant forall j :: 0 <= j < i ==> observations[j].id != id
      {
        if observations[i].id == id {
          assert observations[i] in observations;
          return true;
        }
        i := i + 1;
      }
      found := false;
    }

    method RejectCommand(c: PhaseCommand, code: ErrorCode)
      modifies this
      ensures State() == Reject(old(State()), c, code)
    {
      if c.id !in commands || commands[c.id].command != c {
        return;
      }
      var event := CommandRejection(c.id, code);
      var seen := FindEvent(event);
      if seen {
        return;
      }
      var r := commands[c.id];
      commands := commands[c.id := r.(notExecutable := true, retryScheduled := false, completed := event)];
      if (c.action == Start || c.action == Resume) && r.observed == NoEvent {
        if c.lease in leases && leases[c.lease].active && leases[c.lease].endpoint == c.endpoint
           && leases[c.lease].generation == c.generation && leases[c.lease].binding == c.binding {
          leases := leases[c.lease := leases[c.lease].(active := false)];
        }
      }
      observations := observations + [RejectionOf(c, code)];
    }

    method RecordEndpointDispatchRejection(r: EndpointRef, g: int, b: BindingRef, code: ErrorCode)
      modifies this`observations
      ensures State() == RejectEndpoint(old(State()), r, g, b, code)
    {
      var seen := FindEvent(EndpointRejection(r, g, code));
      if !seen {
        observations := observations + [EndpointRejectionOf(r, g, b, code)];
      }
    }

    /** Records a phase executor's report; a repeated identical report is accepted and changes nothing. */
    method RecordPhaseReport(k: Kind, c: PhaseCommand, checkpoint: string, nonResumable: bool) returns (code: ErrorCode)
      modifies this
      ensures match RecordPhase(old(State()), k, c, checkpoint, nonResumable)
              case Ok(q) => code == NoError && State() == q
              case Err(e) => code == e && State() == old(State())
    {
      var made := NewPhaseObservation(k, c, checkpoint, nonResumable);
      if made.Err? {
        return made.code;
      }
      var o := made.value;
      if o.command !in commands {
        return StaleCommand;
      }
      code := CheckObservationLease(o);
      if code != NoError {
        return;
      }
      if exists e <- observations :: e.id == o.id {
        if exists e <- observations :: e.id == o.id && SamePayload(e, o) {
          return NoError;
        }
        return IdempotencyConflict;
      }
      observations := observations + [o];
    }

    /** Commits an accepted graph at the next revision and keeps every earlier revision readable. */
    method CommitGraph(expected: int, g: Graph, newBindings: map<BindingRef, BindingInfo>) returns (code: ErrorCode)
      modifies this
      ensures match WriteGraph(old(State()), expected, g, newBindings)
              case Ok(q) => code == NoError && State() == q
              case Err(e) => code == e && State() == old(State())
    {
      if expected == LATEST_READ || expected != latest {
        return RevisionConflict;
      }
      latest := latest + 1;
      graph := g;
      history := history[latest := g];
      bindings := bindings + newBindings;
      code := NoError;
    }
  }
}
