/** The coordination store: phase graph, lease, command and observation records, and every
    atomic store operation as a function from the project state before it to the state after.

    Identifiers the store prints with a format string are constructors here; module Ids proves
    on the printed strings which of them can be told apart.
 */
module Coordination {

  // ---------------------------------------------------------------------------------------
  // The phase graph
  // ---------------------------------------------------------------------------------------

  type TaskId = string
  type BindingRef = string

  datatype EndpointName = Plan | Execute | Verify
  datatype EndpointRef = EndpointRef(task: TaskId, endpoint: EndpointName)

  datatype TaskOutcome = TaskActive | TaskDone | TaskCanceled | TaskFailed
  datatype EndpointState = Pending | Submitted | Satisfied | Rejected
  datatype RunPolicy = Enabled | Held
  datatype Signal = PhaseSatisfied | TaskIsDone
  datatype RequiredBy = ByStart | ByCompletion
  datatype BlockerState = BlockerActive | BlockerResolved | BlockerDenied | BlockerObsolete

  datatype Endpoint = Endpoint(
    ref: EndpointRef, spec: string, binding: BindingRef, generation: int,
    state: EndpointState, policy: RunPolicy)
  datatype Edge = Edge(from: EndpointRef, to: EndpointRef, signal: Signal, requiredBy: RequiredBy)
  datatype Blocker = Blocker(target: EndpointRef, requiredBy: RequiredBy, state: BlockerState)

  datatype Graph = Graph(
    tasks: map<TaskId, TaskOutcome>,
    endpoints: map<EndpointRef, Endpoint>,
    edges: seq<Edge>,
    blockers: map<string, Blocker>)
  {
    /** The only part of graph validation the runtime relies on: endpoints are stored under their own ref. */
    predicate WellKeyed() {
      forall r <- endpoints :: endpoints[r].ref == r
    }
  }

  // ---------------------------------------------------------------------------------------
  // Commands, leases, observations
  // ---------------------------------------------------------------------------------------

  datatype LeaseId = NoLease | LeaseId(endpoint: EndpointRef, generation: int)
  datatype CommandId = NoCommand | RunCommand(endpoint: EndpointRef, generation: int) | StopCommand(lease: LeaseId)
  datatype Action = Start | Resume | Stop

  datatype ErrorCode =
    | NoError | StaleCommand | LeaseConflict | StaleCheckpoint | CommandConflict | ExecutorUnavailable
    | IncompleteStopEvidence | InvalidArgument | NotFound | IdempotencyConflict | RevisionConflict | OtherCode

  datatype Kind = Started | Output | Failed | Stopped | DispatchRejected

  datatype EventId =
    | NoEvent
    | PhaseEvent(kind: Kind, command: CommandId)
    | CommandRejection(command: CommandId, code: ErrorCode)
    | EndpointRejection(endpoint: EndpointRef, generation: int, code: ErrorCode)

  datatype PhaseCommand = PhaseCommand(
    id: CommandId, endpoint: EndpointRef, generation: int, binding: BindingRef,
    lease: LeaseId, action: Action, cause: int)

  datatype CommandRecord = CommandRecord(
    command: PhaseCommand, accepted: bool, observed: EventId, completed: EventId,
    retryScheduled: bool, quarantined: bool, notExecutable: bool)

  datatype Lease = Lease(
    ref: LeaseId, endpoint: EndpointRef, generation: int, binding: BindingRef,
    active: bool, expiresAt: int, expired: bool)

  datatype Observation = Observation(
    id: EventId, kind: Kind, command: CommandId, endpoint: EndpointRef, generation: int,
    binding: BindingRef, lease: LeaseId, checkpoint: string, nonResumable: bool,
    error: ErrorCode, folded: bool)

  datatype BindingInfo = BindingInfo(checkpoint: string, nonResumable: bool)

  /** One project of the memory store. */
  datatype Project = Project(
    latest: int,
    history: map<int, Graph>,
    graph: Graph,
    commands: map<CommandId, CommandRecord>,
    leases: map<LeaseId, Lease>,
    observations: seq<Observation>,
    bindings: map<BindingRef, BindingInfo>)

  datatype Result<+T> = Ok(value: T) | Err(code: ErrorCode)

  const LEASE_TTL: int := 3600
  const LATEST_READ: int := 0

  const EMPTY_GRAPH := Graph(map[], map[], [], map[])
  const INITIAL := Project(1, map[1 := EMPTY_GRAPH], EMPTY_GRAPH, map[], map[], [], map[])

  predicate IsRun(a: Action) {
    a == Start || a == Resume
  }

  predicate IsTerminal(k: Kind) {
    k == Output || k == Failed || k == Stopped
  }

  function FreshRecord(c: PhaseCommand): CommandRecord {
    CommandRecord(c, false, NoEvent, NoEvent, false, false, false)
  }

  /** Neither finished nor taken out of service. */
  predicate Live(r: CommandRecord) {
    r.completed == NoEvent && !r.quarantined && !r.notExecutable
  }

  predicate SameIdentity(a: Lease, b: Lease) {
    a.ref == b.ref && a.endpoint == b.endpoint && a.generation == b.generation && a.binding == b.binding
  }

  // ---------------------------------------------------------------------------------------
  // Queries on a view of the project
  // ---------------------------------------------------------------------------------------

  predicate TaskIs(p: Project, t: TaskId, o: TaskOutcome) {
    t in p.graph.tasks && p.graph.tasks[t] == o
  }

  predicate EndpointSatisfied(p: Project, r: EndpointRef) {
    r in p.graph.endpoints && p.graph.endpoints[r].state == Satisfied
  }

  predicate PredecessorSatisfied(p: Project, r: EndpointRef) {
    match r.endpoint
    case Plan => true
    case Execute => EndpointSatisfied(p, EndpointRef(r.task, Plan))
    case Verify => EndpointSatisfied(p, EndpointRef(r.task, Execute))
  }

  predicate EdgeSatisfied(p: Project, e: Edge) {
    match e.signal
    case PhaseSatisfied => EndpointSatisfied(p, e.from)
    case TaskIsDone => TaskIs(p, e.from.task, TaskDone)
  }

  predicate StartConditionsMet(p: Project, r: EndpointRef) {
    && (forall e <- p.graph.edges :: e.to == r && e.requiredBy == ByStart ==> EdgeSatisfied(p, e))
    && (forall b <- p.graph.blockers ::
          p.graph.blockers[b].target == r && p.graph.blockers[b].requiredBy == ByStart ==>
            p.graph.blockers[b].state == BlockerResolved || p.graph.blockers[b].state == BlockerObsolete)
  }

  predicate HasActiveLease(p: Project, r: EndpointRef, g: int) {
    exists l <- p.leases :: p.leases[l].active && p.leases[l].endpoint == r && p.leases[l].generation == g
  }

  predicate HasPendingRunCommand(p: Project, r: EndpointRef, g: int) {
    exists c <- p.commands ::
      && Live(p.commands[c])
      && p.commands[c].command.endpoint == r && p.commands[c].command.generation == g
      && IsRun(p.commands[c].command.action) && p.commands[c].observed == NoEvent
  }

  /** The observation and the command and lease it names agree on what was executed. */
  predicate Matches(p: Project, o: Observation) {
    && o.command in p.commands && o.lease in p.leases
    && var c := p.commands[o.command].command;
       var l := p.leases[o.lease];
       && c.endpoint == o.endpoint && c.generation == o.generation && c.binding == o.binding && c.lease == o.lease
       && l.endpoint == o.endpoint && l.generation == o.generation && l.binding == o.binding
  }

  /** A folded output, failure or stop that is the recorded completion of its command. */
  predicate TerminalWitness(p: Project, o: Observation, r: EndpointRef, g: int) {
    && o.folded && o.endpoint == r && o.generation == g
    && o.command != NoCommand && o.lease != NoLease && o.binding != ""
    && Matches(p, o) && p.commands[o.command].completed == o.id
    && IsTerminal(o.kind)
  }

  predicate HasTerminalObservation(p: Project, r: EndpointRef, g: int) {
    exists o <- p.observations :: TerminalWitness(p, o, r, g)
  }

  predicate IsRunnable(p: Project, e: Endpoint) {
    && TaskIs(p, e.ref.task, TaskActive)
    && e.state == Pending && e.policy == Enabled
    && e.binding != "" && e.spec != ""
    && PredecessorSatisfied(p, e.ref)
    && StartConditionsMet(p, e.ref)
    && !HasActiveLease(p, e.ref, e.generation)
    && !HasPendingRunCommand(p, e.ref, e.generation)
    && !HasTerminalObservation(p, e.ref, e.generation)
  }

  predicate EndpointRunnableNow(p: Project, r: EndpointRef, g: int) {
    && r in p.graph.endpoints && p.graph.endpoints[r].generation == g
    && IsRunnable(p, p.graph.endpoints[r])
  }

  predicate HasCommandForLease(p: Project, l: LeaseId) {
    exists c <- p.commands ::
      p.commands[c].command.lease == l && !p.commands[c].quarantined && !p.commands[c].notExecutable
  }

  predicate HasMatchingActiveLease(p: Project, c: PhaseCommand) {
    && c.lease in p.leases && p.leases[c.lease].active
    && p.leases[c.lease].endpoint == c.endpoint
    && p.leases[c.lease].generation == c.generation
    && p.leases[c.lease].binding == c.binding
  }

  predicate HasRemoteObservation(p: Project, l: Lease) {
    exists o <- p.observations ::
      o.lease == l.ref && o.endpoint == l.endpoint && o.generation == l.generation && o.binding == l.binding
  }

  /** What the runtime sees: the project with every lease's expiry judged at time `now`. */
  function ViewAt(p: Project, now: int): Project {
    p.(leases := map l | l in p.leases ::
         p.leases[l].(expired := p.leases[l].expired || p.leases[l].expiresAt == 0 || p.leases[l].expiresAt <= now))
  }

  function ActiveLeases(p: Project): set<LeaseId> {
    set l | l in p.leases && p.leases[l].active
  }

  predicate MustStop(v: Project, l: Lease) {
    || l.endpoint !in v.graph.endpoints
    || l.endpoint.task !in v.graph.tasks
    || var e := v.graph.endpoints[l.endpoint];
       || v.graph.tasks[l.endpoint.task] != TaskActive
       || e.policy == Held || e.generation != l.generation || e.binding != l.binding || l.expired
  }

  // ---------------------------------------------------------------------------------------
  // Store operations
  // ---------------------------------------------------------------------------------------

  function MarkFolded(os: seq<Observation>, id: EventId): (r: seq<Observation>)
    ensures |r| == |os|
  {
    if os == [] then []
    else if os[0].id == id then [os[0].(folded := true)] + os[1..]
    else [os[0]] + MarkFolded(os[1..], id)
  }

  predicate IdentityComplete(o: Observation) {
    o.command != NoCommand && o.lease != NoLease && o.endpoint.task != "" && o.generation > 0 && o.binding != ""
  }

  /** The checks an observation has to pass against its command and lease; NoError when it passes. */
  function LeaseCheck(p: Project, o: Observation): ErrorCode
    requires o.command in p.commands
  {
    var c := p.commands[o.command].command;
    if !IdentityComplete(o) then InvalidArgument
    else if c.endpoint != o.endpoint || c.generation != o.generation || c.binding != o.binding || c.lease != o.lease
    then StaleCommand
    else if o.lease !in p.leases then LeaseConflict
    else if p.leases[o.lease].endpoint != o.endpoint || p.leases[o.lease].generation != o.generation
            || p.leases[o.lease].binding != o.binding
    then LeaseConflict
    else NoError
  }

  function MarkCommandObserved(p: Project, o: Observation): Result<Project> {
    if o.command !in p.commands then Err(StaleCommand)
    else if LeaseCheck(p, o) != NoError then Err(LeaseCheck(p, o))
    else if !IsRun(p.commands[o.command].command.action) then Err(StaleCommand)
    else if !p.leases[o.lease].active then Err(LeaseConflict)
    else Ok(p.(commands := p.commands[o.command := p.commands[o.command].(observed := o.id)],
               observations := MarkFolded(p.observations, o.id)))
  }

  function CompleteAndRelease(p: Project, o: Observation): Result<Project> {
    if o.command !in p.commands then Err(StaleCommand)
    else if LeaseCheck(p, o) != NoError then Err(LeaseCheck(p, o))
    else if (if o.kind == Stopped then p.commands[o.command].command.action != Stop
             else !IsRun(p.commands[o.command].command.action)) then Err(StaleCommand)
    else Ok(p.(commands := p.commands[o.command := p.commands[o.command].(completed := o.id)],
               leases := p.leases[o.lease := p.leases[o.lease].(active := false)],
               observations := MarkFolded(p.observations, o.id)))
  }

  function ReleaseOrphan(p: Project, l: LeaseId): Result<Project> {
    if l !in p.leases then Err(NotFound)
    else Ok(p.(leases := p.leases[l := p.leases[l].(active := false)]))
  }

  function ExpireLease(p: Project, l: LeaseId): Result<Project> {
    if l !in p.leases then Err(NotFound)
    else Ok(p.(leases := p.leases[l := p.leases[l].(expired := true)]))
  }

  function StopCommandFor(l: Lease, revision: int): PhaseCommand {
    PhaseCommand(StopCommand(l.ref), l.endpoint, l.generation, l.binding, l.ref, Stop, revision)
  }

  function EnsureStopCommand(p: Project, revision: int, l: Lease): Project {
    if StopCommand(l.ref) in p.commands then p
    else p.(commands := p.commands[StopCommand(l.ref) := FreshRecord(StopCommandFor(l, revision))])
  }

  predicate RevisionMatches(expected: int, actual: int) {
    expected != LATEST_READ && expected == actual
  }

  function RunCommandFor(e: Endpoint, action: Action, cause: int): PhaseCommand {
    PhaseCommand(RunCommand(e.ref, e.generation), e.ref, e.generation, e.binding,
                 LeaseId(e.ref, e.generation), action, cause)
  }

  function FreshLease(e: Endpoint, now: int): Lease {
    Lease(LeaseId(e.ref, e.generation), e.ref, e.generation, e.binding, true, now + LEASE_TTL, false)
  }

  /** Whether the claim of an endpoint takes a lease. */
  predicate ClaimSucceeds(p: Project, revision: int, e: Endpoint) {
    && RevisionMatches(revision, p.latest)
    && EndpointRunnableNow(p, e.ref, e.generation)
    && (LeaseId(e.ref, e.generation) in p.leases ==> !p.leases[LeaseId(e.ref, e.generation)].active)
    && RunCommand(e.ref, e.generation) !in p.commands
  }

  function ClaimLease(p: Project, revision: int, e: Endpoint, action: Action, cause: int, now: int): Project {
    if ClaimSucceeds(p, revision, e) then
      p.(leases := p.leases[LeaseId(e.ref, e.generation) := FreshLease(e, now)],
         commands := p.commands[RunCommand(e.ref, e.generation) := FreshRecord(RunCommandFor(e, action, cause))])
    else p
  }

  function MarkAccepted(p: Project, c: CommandId): Project {
    if c !in p.commands then p
    else p.(commands := p.commands[c := p.commands[c].(accepted := true, retryScheduled := false)])
  }

  function ScheduleRetry(p: Project, c: CommandId): Project {
    if c !in p.commands then p
    else p.(commands := p.commands[c := p.commands[c].(retryScheduled := true)])
  }

  function Quarantine(p: Project, c: CommandId): Project {
    if c !in p.commands then p
    else p.(commands := p.commands[c := p.commands[c].(quarantined := true)])
  }

  predicate HasEvent(p: Project, id: EventId) {
    exists o <- p.observations :: o.id == id
  }

  function RejectionOf(c: PhaseCommand, code: ErrorCode): Observation {
    Observation(CommandRejection(c.id, code), DispatchRejected, c.id, c.endpoint, c.generation, c.binding,
                c.lease, "", false, code, true)
  }

  function Reject(p: Project, c: PhaseCommand, code: ErrorCode): Project {
    if c.id !in p.commands || p.commands[c.id].command != c || HasEvent(p, CommandRejection(c.id, code)) then p
    else
      var r := p.commands[c.id];
      p.(commands := p.commands[c.id := r.(notExecutable := true, retryScheduled := false,
                                           completed := CommandRejection(c.id, code))],
         leases := if IsRun(c.action) && r.observed == NoEvent && HasMatchingActiveLease(p, c)
                   then p.leases[c.lease := p.leases[c.lease].(active := false)]
                   else p.leases,
         observations := p.observations + [RejectionOf(c, code)])
  }

  function EndpointRejectionOf(r: EndpointRef, g: int, b: BindingRef, code: ErrorCode): Observation {
    Observation(EndpointRejection(r, g, code), DispatchRejected, NoCommand, r, g, b, NoLease, "", false, code, true)
  }

  function RejectEndpoint(p: Project, r: EndpointRef, g: int, b: BindingRef, code: ErrorCode): Project {
    if HasEvent(p, EndpointRejection(r, g, code)) then p
    else p.(observations := p.observations + [EndpointRejectionOf(r, g, b, code)])
  }

  /** The observation a phase executor's report becomes, or why the report is refused. */
  function NewPhaseObservation(k: Kind, c: PhaseCommand, checkpoint: string, nonResumable: bool): Result<Observation> {
    if c.id == NoCommand then Err(InvalidArgument)
    else if c.endpoint.task == "" || c.generation <= 0 || c.binding == "" || c.lease == NoLease
    then Err(InvalidArgument)
    else if k == DispatchRejected then Err(InvalidArgument)
    else if k == Stopped && c.action != Stop then Err(StaleCommand)
    else if k == Stopped && checkpoint == "" && !nonResumable then Err(IncompleteStopEvidence)
    else if k != Stopped && !IsRun(c.action) then Err(StaleCommand)
    else if k != Stopped && (checkpoint != "" || nonResumable) then Err(InvalidArgument)
    else Ok(Observation(PhaseEvent(k, c.id), k, c.id, c.endpoint, c.generation, c.binding, c.lease,
                        checkpoint, nonResumable, NoError, false))
  }

  predicate SamePayload(a: Observation, b: Observation) {
    a.(folded := false) == b.(folded := false)
  }

  function AppendObservation(p: Project, o: Observation): Result<Project> {
    if o.id == NoEvent then Err(InvalidArgument)
    else if o.kind != DispatchRejected && o.command !in p.commands then Err(StaleCommand)
    else if o.kind != DispatchRejected && LeaseCheck(p, o) != NoError then Err(LeaseCheck(p, o))
    else if HasEvent(p, o.id) then
      if exists e <- p.observations :: e.id == o.id && SamePayload(e, o) then Ok(p) else Err(IdempotencyConflict)
    else Ok(p.(observations := p.observations + [o]))
  }

  function RecordPhase(p: Project, k: Kind, c: PhaseCommand, checkpoint: string, nonResumable: bool): Result<Project> {
    var o := NewPhaseObservation(k, c, checkpoint, nonResumable);
    if o.Err? then Err(o.code) else AppendObservation(p, o.value)
  }

  /** A graph write: whatever well-keyed graph validation let through, under the revision check. */
  function WriteGraph(p: Project, expected: int, g: Graph, bs: map<BindingRef, BindingInfo>): Result<Project> {
    if !RevisionMatches(expected, p.latest) then Err(RevisionConflict)
    else Ok(p.(latest := p.latest + 1, graph := g, history := p.history[p.latest + 1 := g],
               bindings := p.bindings + bs))
  }
}
