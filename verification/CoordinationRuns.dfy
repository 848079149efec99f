/** Runs of the coordination store: any interleaving of a single runtime's store operations with
    observation reports, lease expiries and graph writes. The invariant every step keeps, and what
    it means for whole runs: one claim per endpoint generation, one-way leases, permanent ends.
 */
module CoordinationRuns {
  import opened Coordination

  datatype Step =
    | DoWriteGraph(expected: int, graph: Graph, newBindings: map<BindingRef, BindingInfo>)
    | DoRecord(kind: Kind, command: PhaseCommand, checkpoint: string, nonResumable: bool)
    | DoExpire(lease: LeaseId)
    | DoFold(observation: Observation)
    | DoReleaseOrphan(lease: LeaseId)
    | DoEnsureStop(revision: int, held: Lease)
    | DoClaim(claimRevision: int, endpoint: Endpoint, action: Action, cause: int, now: int)
    | DoAccept(id: CommandId)
    | DoRetry(id: CommandId)
    | DoQuarantine(id: CommandId)
    | DoReject(rejected: PhaseCommand, code: ErrorCode)
    | DoRejectEndpoint(ref: EndpointRef, generation: int, binding: BindingRef, endpointCode: ErrorCode)

  /** One fold of one observation, by its kind. */
  function FoldOne(p: Project, o: Observation): Result<Project> {
    match o.kind
    case Started => MarkCommandObserved(p, o)
    case Output => CompleteAndRelease(p, o)
    case Failed => CompleteAndRelease(p, o)
    case Stopped =>
      if o.checkpoint == "" && !o.nonResumable then Err(IncompleteStopEvidence) else CompleteAndRelease(p, o)
    case DispatchRejected => Ok(p)
  }

  function OrElse(r: Result<Project>, p: Project): Project {
    if r.Ok? then r.value else p
  }

  /** The state after a step; a refused operation changes nothing. */
  function Apply(p: Project, s: Step): Project {
    match s
    case DoWriteGraph(x, g, bs) => OrElse(WriteGraph(p, x, g, bs), p)
    case DoRecord(k, c, cp, nr) => OrElse(RecordPhase(p, k, c, cp, nr), p)
    case DoExpire(l) => OrElse(ExpireLease(p, l), p)
    case DoFold(o) => OrElse(FoldOne(p, o), p)
    case DoReleaseOrphan(l) => OrElse(ReleaseOrphan(p, l), p)
    case DoEnsureStop(rv, l) => EnsureStopCommand(p, rv, l)
    case DoClaim(rv, e, a, cause, now) => ClaimLease(p, rv, e, a, cause, now)
    case DoAccept(c) => MarkAccepted(p, c)
    case DoRetry(c) => ScheduleRetry(p, c)
    case DoQuarantine(c) => Quarantine(p, c)
    case DoReject(c, code) => Reject(p, c, code)
    case DoRejectEndpoint(r, g, b, code) => RejectEndpoint(p, r, g, b, code)
  }

  /** What the single runtime and the validated writers guarantee about the arguments of a step. */
  predicate Allowed(p: Project, s: Step) {
    match s
    case DoWriteGraph(_, g, _) => g.WellKeyed()
    case DoFold(o) => o in p.observations && !o.folded
    case DoEnsureStop(_, l) => l.ref in p.leases && SameIdentity(l, p.leases[l.ref])
    case DoClaim(_, _, a, _, _) => IsRun(a)
    case DoReject(c, _) => c.id in p.commands ==> p.commands[c.id].completed == NoEvent
    case _ => true
  }

  predicate IsRunOf(p: Project, steps: seq<Step>)
    decreases |steps|
  {
    steps == [] || (Allowed(p, steps[0]) && IsRunOf(Apply(p, steps[0]), steps[1..]))
  }

  function After(p: Project, steps: seq<Step>): Project
    decreases |steps|
  {
    if steps == [] then p else After(Apply(p, steps[0]), steps[1..])
  }

  // ---------------------------------------------------------------------------------------
  // The invariant
  // ---------------------------------------------------------------------------------------

  /** A lease is stored under the id of its endpoint generation, beside that generation's run command. */
  predicate LeaseOk(p: Project, l: LeaseId)
    requires l in p.leases
  {
    && p.leases[l].ref == l
    && l == LeaseId(p.leases[l].endpoint, p.leases[l].generation)
    && RunCommand(p.leases[l].endpoint, p.leases[l].generation) in p.commands
  }

  predicate LeasesPaired(p: Project) {
    forall l {:trigger LeaseOk(p, l)} :: l in p.leases ==> LeaseOk(p, l)
  }

  predicate CommandOk(p: Project, c: CommandId)
    requires c in p.commands
  {
    var k := p.commands[c].command;
    && k.id == c
    && (match c
        case NoCommand => false
        case RunCommand(r, g) => IsRun(k.action) && k.endpoint == r && k.generation == g && k.lease == LeaseId(r, g)
        case StopCommand(l) => k.action == Stop && k.lease == l)
    && k.lease in p.leases
    && p.leases[k.lease].endpoint == k.endpoint
    && p.leases[k.lease].generation == k.generation
    && p.leases[k.lease].binding == k.binding
  }

  predicate CommandsPaired(p: Project) {
    forall c {:trigger CommandOk(p, c)} :: c in p.commands ==> CommandOk(p, c)
  }

  /** A rejected command is stored and finished. */
  predicate RejectionOk(p: Project, id: EventId) {
    id.CommandRejection? ==> id.command in p.commands && p.commands[id.command].completed != NoEvent
  }

  predicate ObservationOk(p: Project, o: Observation) {
    && (o.kind == DispatchRejected ==> o.folded && !o.id.NoEvent? && !o.id.PhaseEvent? && RejectionOk(p, o.id))
    && (o.kind != DispatchRejected ==>
          && o.id == PhaseEvent(o.kind, o.command) && IdentityComplete(o) && Matches(p, o)
          && (o.kind == Stopped ==> o.checkpoint != "" || o.nonResumable))
  }

  predicate DistinctEvents(os: seq<Observation>) {
    forall i, j :: 0 <= i < j < |os| ==> os[i].id != os[j].id
  }

  predicate ObservationsSound(p: Project) {
    && DistinctEvents(p.observations)
    && forall o {:trigger ObservationOk(p, o)} :: o in p.observations ==> ObservationOk(p, o)
  }

  predicate Inv(p: Project) {
    LeasesPaired(p) && CommandsPaired(p) && ObservationsSound(p) && p.graph.WellKeyed() && p.latest >= 1
  }

  // ---------------------------------------------------------------------------------------
  // What every step keeps
  // ---------------------------------------------------------------------------------------

  /** Identities are permanent, a finished command stays finished and a released lease is not taken again. */
  predicate Evolves(p: Project, q: Project) {
    && (forall c <- p.commands ::
          && c in q.commands && q.commands[c].command == p.commands[c].command
          && (p.commands[c].completed != NoEvent ==> q.commands[c].completed != NoEvent))
    && (forall l <- p.leases ::
          && l in q.leases && SameIdentity(q.leases[l], p.leases[l])
          && (q.leases[l].active ==> p.leases[l].active))
    && p.latest <= q.latest
  }

  lemma MarkFoldedAt(os: seq<Observation>, id: EventId, i: nat)
    requires DistinctEvents(os) && i < |os|
    ensures MarkFolded(os, id)[i] == if os[i].id == id then os[i].(folded := true) else os[i]
  {
    if os != [] && os[0].id != id && i > 0 {
      MarkFoldedAt(os[1..], id, i - 1);
    }
  }

  lemma MarkFoldedKeeps(os: seq<Observation>, id: EventId)
    requires DistinctEvents(os)
    ensures DistinctEvents(MarkFolded(os, id))
    ensures forall o <- os :: (if o.id == id then o.(folded := true) else o) in MarkFolded(os, id)
    ensures forall m <- MarkFolded(os, id) ::
              exists o <- os :: m == if o.id == id then o.(folded := true) else o
  {
    var ms := MarkFolded(os, id);
    forall i | 0 <= i < |os|
      ensures ms[i] == if os[i].id == id then os[i].(folded := true) else os[i]
    {
      MarkFoldedAt(os, id, i);
    }
    forall m | m in ms
      ensures exists o <- os :: m == if o.id == id then o.(folded := true) else o
    {
      var i :| 0 <= i < |ms| && ms[i] == m;
      assert os[i] in os;
    }
    forall o | o in os
      ensures (if o.id == id then o.(folded := true) else o) in ms
    {
      var i :| 0 <= i < |os| && os[i] == o;
      assert ms[i] in ms;
    }
  }

  /** Observations stay sound when commands and leases only evolve. */
  lemma ObservationsCarry(p: Project, q: Project)
    requires ObservationsSound(p) && Evolves(p, q) && q.observations == p.observations
    ensures ObservationsSound(q)
  {
    forall o | o in q.observations
      ensures ObservationOk(q, o)
    {
      assert ObservationOk(p, o);
    }
  }

  lemma ObservationsAppend(p: Project, q: Project, o: Observation)
    requires ObservationsSound(p) && Evolves(p, q) && q.observations == p.observations + [o]
    requires !HasEvent(p, o.id) && ObservationOk(q, o)
    ensures ObservationsSound(q)
  {
    ObservationsCarry(p, q.(observations := p.observations));
    forall x | x in q.observations
      ensures ObservationOk(q, x)
    {
      if x in p.observations {
        assert ObservationOk(q.(observations := p.observations), x);
      }
    }
  }

  lemma ObservationsFolded(p: Project, q: Project, id: EventId)
    requires ObservationsSound(p) && Evolves(p, q) && q.observations == MarkFolded(p.observations, id)
    ensures ObservationsSound(q)
  {
    MarkFoldedKeeps(p.observations, id);
    forall m | m in q.observations
      ensures ObservationOk(q, m)
    {
      var o :| o in p.observations && m == if o.id == id then o.(folded := true) else o;
      assert ObservationOk(p, o);
    }
  }

  /** Pairing survives evolution when whatever is new is itself paired. */
  lemma PairsCarry(p: Project, q: Project)
    requires LeasesPaired(p) && CommandsPaired(p) && Evolves(p, q)
    requires forall l <- q.leases :: l in p.leases || LeaseOk(q, l)
    requires forall c <- q.commands :: c in p.commands || CommandOk(q, c)
    ensures LeasesPaired(q) && CommandsPaired(q)
  {
    forall l | l in q.leases
      ensures LeaseOk(q, l)
    {
      if l in p.leases {
        assert LeaseOk(p, l);
      }
    }
    forall c | c in q.commands
      ensures CommandOk(q, c)
    {
      if c in p.commands {
        assert CommandOk(p, c);
      }
    }
  }

  /** A fold relabels its command and lease and marks its observation. */
  lemma FoldEffect(p: Project, o: Observation)
    requires FoldOne(p, o).Ok? && o.kind != DispatchRejected && o.id != NoEvent
    ensures var q := FoldOne(p, o).value;
            && Evolves(p, q) && q.commands.Keys == p.commands.Keys && q.leases.Keys == p.leases.Keys
            && q.observations == MarkFolded(p.observations, o.id) && q.graph == p.graph && q.latest == p.latest
  {
  }

  lemma FoldKeepsInv(p: Project, o: Observation)
    requires Inv(p) && o in p.observations && FoldOne(p, o).Ok?
    ensures Inv(FoldOne(p, o).value) && Evolves(p, FoldOne(p, o).value)
  {
    if o.kind != DispatchRejected {
      assert ObservationOk(p, o);
      FoldEffect(p, o);
      PairsCarry(p, FoldOne(p, o).value);
      ObservationsFolded(p, FoldOne(p, o).value, o.id);
    }
  }

  lemma EnsureStopKeepsInv(p: Project, rv: int, l: Lease)
    requires Inv(p) && Allowed(p, DoEnsureStop(rv, l))
    ensures Inv(EnsureStopCommand(p, rv, l)) && Evolves(p, EnsureStopCommand(p, rv, l))
  {
    var q := EnsureStopCommand(p, rv, l);
    PairsCarry(p, q);
    ObservationsCarry(p, q);
  }

  lemma ClaimKeepsInv(p: Project, rv: int, e: Endpoint, a: Action, cause: int, now: int)
    requires Inv(p) && IsRun(a)
    ensures Inv(ClaimLease(p, rv, e, a, cause, now)) && Evolves(p, ClaimLease(p, rv, e, a, cause, now))
  {
    if ClaimSucceeds(p, rv, e) {
      var q := ClaimLease(p, rv, e, a, cause, now);
      assert LeaseId(e.ref, e.generation) in p.leases ==> LeaseOk(p, LeaseId(e.ref, e.generation));
      PairsCarry(p, q);
      ObservationsCarry(p, q);
    }
  }

  lemma RejectKeepsInv(p: Project, c: PhaseCommand, code: ErrorCode)
    requires Inv(p)
    ensures Inv(Reject(p, c, code)) && Evolves(p, Reject(p, c, code))
  {
    var q := Reject(p, c, code);
    if q != p {
      PairsCarry(p, q);
      ObservationsAppend(p, q, RejectionOf(c, code));
    }
  }

  lemma RejectEndpointKeepsInv(p: Project, r: EndpointRef, g: int, b: BindingRef, code: ErrorCode)
    requires Inv(p)
    ensures Inv(RejectEndpoint(p, r, g, b, code)) && Evolves(p, RejectEndpoint(p, r, g, b, code))
  {
    var q := RejectEndpoint(p, r, g, b, code);
    if q != p {
      PairsCarry(p, q);
      ObservationsAppend(p, q, EndpointRejectionOf(r, g, b, code));
    }
  }

  lemma RecordKeepsInv(p: Project, k: Kind, c: PhaseCommand, cp: string, nr: bool)
    requires Inv(p)
    ensures Inv(OrElse(RecordPhase(p, k, c, cp, nr), p)) && Evolves(p, OrElse(RecordPhase(p, k, c, cp, nr), p))
  {
    var q := OrElse(RecordPhase(p, k, c, cp, nr), p);
    if q != p {
      var o := NewPhaseObservation(k, c, cp, nr).value;
      PairsCarry(p, q);
      ObservationsAppend(p, q, o);
    }
  }

  /** Changes to records and lease flags that leave every identity alone. */
  lemma RelabelKeepsInv(p: Project, q: Project)
    requires Inv(p) && Evolves(p, q)
    requires q.commands.Keys == p.commands.Keys && q.leases.Keys == p.leases.Keys
    requires q.observations == p.observations && q.graph.WellKeyed()
    ensures Inv(q)
  {
    PairsCarry(p, q);
    ObservationsCarry(p, q);
  }

  lemma RelabelCommandKeepsInv(p: Project, c: CommandId, r: CommandRecord)
    requires Inv(p) && c in p.commands && r.command == p.commands[c].command && r.completed == p.commands[c].completed
    ensures var q := p.(commands := p.commands[c := r]); Inv(q) && Evolves(p, q)
  {
    RelabelKeepsInv(p, p.(commands := p.commands[c := r]));
  }

  lemma RelabelLeaseKeepsInv(p: Project, l: LeaseId, r: Lease)
    requires Inv(p) && l in p.leases && SameIdentity(r, p.leases[l]) && (r.active ==> p.leases[l].active)
    ensures var q := p.(leases := p.leases[l := r]); Inv(q) && Evolves(p, q)
  {
    RelabelKeepsInv(p, p.(leases := p.leases[l := r]));
  }

  /** The invariant is inductive, and every step only evolves the state. */
  lemma StepKeepsInv(p: Project, s: Step)
    requires Inv(p) && Allowed(p, s)
    ensures Inv(Apply(p, s)) && Evolves(p, Apply(p, s))
  {
    match s {
      case DoWriteGraph(_, _, _) => RelabelKeepsInv(p, Apply(p, s));
      case DoRecord(k, c, cp, nr) => RecordKeepsInv(p, k, c, cp, nr);
      case DoFold(o) => if FoldOne(p, o).Ok? { FoldKeepsInv(p, o); }
      case DoEnsureStop(rv, l) => EnsureStopKeepsInv(p, rv, l);
      case DoClaim(rv, e, a, cause, now) => ClaimKeepsInv(p, rv, e, a, cause, now);
      case DoReject(c, code) => RejectKeepsInv(p, c, code);
      case DoRejectEndpoint(r, g, b, code) => RejectEndpointKeepsInv(p, r, g, b, code);
      case DoExpire(l) => if l in p.leases { RelabelLeaseKeepsInv(p, l, p.leases[l].(expired := true)); }
      case DoReleaseOrphan(l) => if l in p.leases { RelabelLeaseKeepsInv(p, l, p.leases[l].(active := false)); }
      case DoAccept(c) =>
        if c in p.commands { RelabelCommandKeepsInv(p, c, p.commands[c].(accepted := true, retryScheduled := false)); }
      case DoRetry(c) => if c in p.commands { RelabelCommandKeepsInv(p, c, p.commands[c].(retryScheduled := true)); }
      case DoQuarantine(c) => if c in p.commands { RelabelCommandKeepsInv(p, c, p.commands[c].(quarantined := true)); }
    }
  }

  lemma InitialInv()
    ensures Inv(INITIAL)
  {
  }

  lemma EvolvesTransitive(p: Project, q: Project, r: Project)
    requires Evolves(p, q) && Evolves(q, r)
    ensures Evolves(p, r)
  {
  }

  /** Every state a run reaches satisfies the invariant and evolves from every earlier one. */
  lemma {:induction false} RunKeepsInv(p: Project, steps: seq<Step>)
    requires Inv(p) && IsRunOf(p, steps)
    ensures Inv(After(p, steps)) && Evolves(p, After(p, steps))
    decreases |steps|
  {
    if steps != [] {
      StepKeepsInv(p, steps[0]);
      RunKeepsInv(Apply(p, steps[0]), steps[1..]);
      EvolvesTransitive(p, Apply(p, steps[0]), After(p, steps));
    }
  }

  lemma {:induction false} RunConcat(p: Project, a: seq<Step>, b: seq<Step>)
    requires IsRunOf(p, a) && IsRunOf(After(p, a), b)
    ensures IsRunOf(p, a + b) && After(p, a + b) == After(After(p, a), b)
    decreases |a|
  {
    if a == [] {
      assert a + b == b;
    } else {
      RunConcat(Apply(p, a[0]), a[1..], b);
      assert (a + b)[1..] == a[1..] + b;
    }
  }

  lemma {:induction false} RunSplit(p: Project, steps: seq<Step>, i: nat)
    requires i <= |steps| && IsRunOf(p, steps)
    ensures IsRunOf(p, steps[..i]) && IsRunOf(After(p, steps[..i]), steps[i..])
    ensures After(p, steps) == After(After(p, steps[..i]), steps[i..])
    decreases |steps|
  {
    if i > 0 {
      RunSplit(Apply(p, steps[0]), steps[1..], i - 1);
      assert steps[1..][..i - 1] == steps[..i][1..];
      assert steps[1..][i - 1..] == steps[i..];
    } else {
      assert steps[..0] == [] && steps[0..] == steps;
    }
  }

  // ---------------------------------------------------------------------------------------
  // One claim per endpoint generation; one-way leases
  // ---------------------------------------------------------------------------------------

  /** Step i of the run takes the lease of this endpoint generation. */
  predicate ClaimsAt(p: Project, steps: seq<Step>, i: nat, r: EndpointRef, g: int)
    requires i < |steps|
  {
    && steps[i].DoClaim? && steps[i].endpoint.ref == r && steps[i].endpoint.generation == g
    && ClaimSucceeds(After(p, steps[..i]), steps[i].claimRevision, steps[i].endpoint)
  }

  /** Any two points of a run: both satisfy the invariant and the later evolves from the earlier. */
  lemma Between(p: Project, steps: seq<Step>, i: nat, j: nat)
    requires Inv(p) && IsRunOf(p, steps) && i <= j <= |steps|
    ensures Inv(After(p, steps[..i])) && Inv(After(p, steps[..j]))
    ensures Evolves(After(p, steps[..i]), After(p, steps[..j]))
  {
    RunSplit(p, steps, j);
    RunSplit(p, steps[..j], i);
    assert steps[..j][..i] == steps[..i];
    RunKeepsInv(p, steps[..i]);
    RunKeepsInv(After(p, steps[..i]), steps[..j][i..]);
  }

  lemma NextState(p: Project, steps: seq<Step>, i: nat)
    requires IsRunOf(p, steps) && i < |steps|
    ensures After(p, steps[..i + 1]) == Apply(After(p, steps[..i]), steps[i])
  {
    RunSplit(p, steps, i + 1);
    RunSplit(p, steps[..i + 1], i);
    assert steps[..i + 1][..i] == steps[..i];
    assert steps[..i + 1][i..] == [steps[i]];
    var q := After(p, steps[..i]);
    assert [steps[i]][1..] == [];
    assert After(q, [steps[i]]) == After(Apply(q, steps[i]), []);
  }

  /** In every run, each endpoint generation is claimed at most once. */
  lemma ClaimedAtMostOnce(p: Project, steps: seq<Step>, i: nat, j: nat, r: EndpointRef, g: int)
    requires Inv(p) && IsRunOf(p, steps)
    requires i < j < |steps|
    requires ClaimsAt(p, steps, i, r, g)
    ensures !ClaimsAt(p, steps, j, r, g)
  {
    NextState(p, steps, i);
    assert RunCommand(r, g) in After(p, steps[..i + 1]).commands;
    Between(p, steps, i + 1, j);
    assert RunCommand(r, g) in After(p, steps[..j]).commands;
  }

  datatype LeaseLife = Absent | Active | Released

  function LifeOf(p: Project, l: LeaseId): LeaseLife {
    if l !in p.leases then Absent else if p.leases[l].active then Active else Released
  }

  predicate NotBefore(a: LeaseLife, b: LeaseLife) {
    a == b || a == Absent || (a == Active && b == Released)
  }

  /** A lease and its run command exist together and agree. */
  predicate PairedAt(p: Project, r: EndpointRef, g: int) {
    var l, c := LeaseId(r, g), RunCommand(r, g);
    && (l in p.leases <==> c in p.commands)
    && (l in p.leases ==>
          && p.commands[c].command.endpoint == p.leases[l].endpoint == r
          && p.commands[c].command.generation == p.leases[l].generation == g
          && p.commands[c].command.binding == p.leases[l].binding)
  }

  lemma InvPairs(p: Project, r: EndpointRef, g: int)
    requires Inv(p)
    ensures PairedAt(p, r, g)
  {
    if LeaseId(r, g) in p.leases {
      assert LeaseOk(p, LeaseId(r, g));
    }
    if RunCommand(r, g) in p.commands {
      assert CommandOk(p, RunCommand(r, g));
    }
  }

  /** Between any two points of a run a lease only moves absent, active, released; its endpoint, generation
      and binding, and its run command, never change; and each exists exactly when the other does. */
  lemma LeaseLifecycle(p: Project, steps: seq<Step>, i: nat, j: nat, r: EndpointRef, g: int)
    requires Inv(p) && IsRunOf(p, steps) && i <= j <= |steps|
    ensures var a, b := After(p, steps[..i]), After(p, steps[..j]);
            && PairedAt(a, r, g) && PairedAt(b, r, g)
            && NotBefore(LifeOf(a, LeaseId(r, g)), LifeOf(b, LeaseId(r, g)))
            && (LeaseId(r, g) in a.leases ==>
                  && LeaseId(r, g) in b.leases && SameIdentity(a.leases[LeaseId(r, g)], b.leases[LeaseId(r, g)])
                  && b.commands[RunCommand(r, g)].command == a.commands[RunCommand(r, g)].command)
  {
    Between(p, steps, i, j);
    InvPairs(After(p, steps[..i]), r, g);
    InvPairs(After(p, steps[..j]), r, g);
  }

  // ---------------------------------------------------------------------------------------
  // A folded end is permanent
  // ---------------------------------------------------------------------------------------

  /** A witness survives any change that keeps its command's completion and its own observation. */
  lemma WitnessCarries(p: Project, q: Project, o: Observation, r: EndpointRef, g: int)
    requires Evolves(p, q) && TerminalWitness(p, o, r, g) && o in q.observations
    requires q.commands[o.command].completed == p.commands[o.command].completed
    ensures HasTerminalObservation(q, r, g)
  {
    assert TerminalWitness(q, o, r, g);
  }

  lemma CompletionIsWitness(p: Project, o: Observation)
    requires Inv(p) && o in p.observations && IsTerminal(o.kind) && FoldOne(p, o).Ok?
    ensures HasTerminalObservation(FoldOne(p, o).value, o.endpoint, o.generation)
  {
    var q := FoldOne(p, o).value;
    FoldKeepsInv(p, o);
    MarkFoldedKeeps(p.observations, o.id);
    assert ObservationOk(p, o);
    assert TerminalWitness(q, o.(folded := true), o.endpoint, o.generation);
  }

  /** Observations stay and finished commands keep their completion. */
  predicate KeepsEnds(p: Project, q: Project) {
    && (forall o <- p.observations :: o.folded ==> o in q.observations)
    && (forall c <- p.commands :: p.commands[c].completed != NoEvent ==>
          c in q.commands && q.commands[c].completed == p.commands[c].completed)
  }

  lemma EndCarries(p: Project, q: Project, r: EndpointRef, g: int)
    requires Inv(p) && Evolves(p, q) && KeepsEnds(p, q) && HasTerminalObservation(p, r, g)
    ensures HasTerminalObservation(q, r, g)
  {
    var w :| w in p.observations && TerminalWitness(p, w, r, g);
    assert ObservationOk(p, w);
    WitnessCarries(p, q, w, r, g);
  }

  lemma MarkingKeepsFolded(os: seq<Observation>, id: EventId)
    requires DistinctEvents(os)
    ensures forall o <- os :: o.folded ==> o in MarkFolded(os, id)
  {
    MarkFoldedKeeps(os, id);
    forall o | o in os && o.folded
      ensures o in MarkFolded(os, id)
    {
      assert o.(folded := true) == o;
    }
  }

  /** The completion of another command stays an end. */
  lemma OtherCompletionKeepsEnd(p: Project, o: Observation, w: Observation, r: EndpointRef, g: int)
    requires Inv(p) && o in p.observations && IsTerminal(o.kind) && FoldOne(p, o).Ok?
    requires w in p.observations && TerminalWitness(p, w, r, g) && o.command != w.command
    ensures HasTerminalObservation(FoldOne(p, o).value, r, g)
  {
    FoldKeepsInv(p, o);
    MarkingKeepsFolded(p.observations, o.id);
    WitnessCarries(p, FoldOne(p, o).value, w, r, g);
  }

  lemma CompletionKeepsEnd(p: Project, o: Observation, r: EndpointRef, g: int)
    requires Inv(p) && o in p.observations && IsTerminal(o.kind) && FoldOne(p, o).Ok?
    requires HasTerminalObservation(p, r, g)
    ensures HasTerminalObservation(FoldOne(p, o).value, r, g)
  {
    var w :| w in p.observations && TerminalWitness(p, w, r, g);
    assert ObservationOk(p, o);
    if o.command == w.command {
      CompletionIsWitness(p, o);
    } else {
      OtherCompletionKeepsEnd(p, o, w, r, g);
    }
  }

  lemma ObservingKeepsEnd(p: Project, o: Observation, r: EndpointRef, g: int)
    requires Inv(p) && o in p.observations && o.kind == Started && FoldOne(p, o).Ok?
    requires HasTerminalObservation(p, r, g)
    ensures HasTerminalObservation(FoldOne(p, o).value, r, g)
  {
    FoldKeepsInv(p, o);
    MarkingKeepsFolded(p.observations, o.id);
    EndCarries(p, FoldOne(p, o).value, r, g);
  }

  lemma RecordKeepsEnds(p: Project, k: Kind, c: PhaseCommand, cp: string, nr: bool)
    ensures KeepsEnds(p, OrElse(RecordPhase(p, k, c, cp, nr), p))
  {
  }

  lemma RejectKeepsEnds(p: Project, c: PhaseCommand, code: ErrorCode)
    requires Allowed(p, DoReject(c, code))
    ensures KeepsEnds(p, Reject(p, c, code))
  {
  }

  lemma ClaimKeepsEnds(p: Project, rv: int, e: Endpoint, a: Action, cause: int, now: int)
    ensures KeepsEnds(p, ClaimLease(p, rv, e, a, cause, now))
  {
  }

  lemma OtherStepsKeepEnds(p: Project, s: Step)
    requires Allowed(p, s) && !s.DoFold?
    ensures KeepsEnds(p, Apply(p, s))
  {
    match s {
      case DoRecord(k, c, cp, nr) => RecordKeepsEnds(p, k, c, cp, nr);
      case DoReject(c, code) => RejectKeepsEnds(p, c, code);
      case DoClaim(rv, e, a, cause, now) => ClaimKeepsEnds(p, rv, e, a, cause, now);
      case _ =>
    }
  }

  lemma StepKeepsEnd(p: Project, s: Step, r: EndpointRef, g: int)
    requires Inv(p) && Allowed(p, s) && HasTerminalObservation(p, r, g)
    ensures HasTerminalObservation(Apply(p, s), r, g)
  {
    if !s.DoFold? {
      StepKeepsInv(p, s);
      OtherStepsKeepEnds(p, s);
      EndCarries(p, Apply(p, s), r, g);
    } else if FoldOne(p, s.observation).Ok? {
      if IsTerminal(s.observation.kind) {
        CompletionKeepsEnd(p, s.observation, r, g);
      } else if s.observation.kind == Started {
        ObservingKeepsEnd(p, s.observation, r, g);
      }
    }
  }

  /** Once an output, failure or stop of an endpoint generation has been folded, no later state of the run
      finds that generation runnable, whatever graph, binding or policy it is given. */
  lemma {:induction false} EndedNeverRunnable(p: Project, steps: seq<Step>, e: Endpoint)
    requires Inv(p) && IsRunOf(p, steps) && HasTerminalObservation(p, e.ref, e.generation)
    ensures HasTerminalObservation(After(p, steps), e.ref, e.generation)
    ensures !IsRunnable(After(p, steps), e)
    decreases |steps|
  {
    if steps != [] {
      StepKeepsInv(p, steps[0]);
      StepKeepsEnd(p, steps[0], e.ref, e.generation);
      EndedNeverRunnable(Apply(p, steps[0]), steps[1..], e);
    }
  }

  /** The same, from the moment of the fold. */
  lemma FoldedNeverRunnable(p: Project, o: Observation, steps: seq<Step>, e: Endpoint)
    requires Inv(p) && Allowed(p, DoFold(o)) && IsTerminal(o.kind) && FoldOne(p, o).Ok?
    requires e.ref == o.endpoint && e.generation == o.generation
    requires IsRunOf(FoldOne(p, o).value, steps)
    ensures !IsRunnable(After(FoldOne(p, o).value, steps), e)
  {
    FoldKeepsInv(p, o);
    CompletionIsWitness(p, o);
    EndedNeverRunnable(FoldOne(p, o).value, steps, e);
  }

  // ---------------------------------------------------------------------------------------
  // Rejecting a finished command
  // ---------------------------------------------------------------------------------------

  /** A completion that a rejection replaced is no end any more; other ends stay. */
  lemma RejectedIsNoEnd(p: Project, c: PhaseCommand, code: ErrorCode, o: Observation, r: EndpointRef, g: int)
    requires Inv(p) && o in p.observations && c.id in p.commands && p.commands[c.id].command == c
    requires !HasEvent(p, CommandRejection(c.id, code))
    ensures TerminalWitness(Reject(p, c, code), o, r, g) <==> TerminalWitness(p, o, r, g) && o.command != c.id
  {
    assert ObservationOk(p, o);
  }

  /** Rejecting a command takes the end of a generation away exactly when the rejection is new and every end the
      generation has is the completion of that command. */
  lemma RejectionReopensIff(p: Project, c: PhaseCommand, code: ErrorCode, r: EndpointRef, g: int)
    requires Inv(p) && HasTerminalObservation(p, r, g)
    ensures !HasTerminalObservation(Reject(p, c, code), r, g) <==>
            && c.id in p.commands && p.commands[c.id].command == c && !HasEvent(p, CommandRejection(c.id, code))
            && forall o <- p.observations :: TerminalWitness(p, o, r, g) ==> o.command == c.id
  {
    var q := Reject(p, c, code);
    if c.id in p.commands && p.commands[c.id].command == c && !HasEvent(p, CommandRejection(c.id, code)) {
      forall o | o in p.observations
        ensures TerminalWitness(q, o, r, g) <==> TerminalWitness(p, o, r, g) && o.command != c.id
      {
        RejectedIsNoEnd(p, c, code, o, r, g);
      }
      assert forall o :: o in q.observations <==> o in p.observations || o == RejectionOf(c, code);
    }
  }

  const ONLY_REF := EndpointRef("t", Plan)
  const ONLY_ENDPOINT := Endpoint(ONLY_REF, "spec", "b", 1, Pending, Enabled)
  const ONLY_COMMAND := RunCommandFor(ONLY_ENDPOINT, Start, 1)
  const ONE_ENDPOINT := Graph(map["t" := TaskActive], map[ONLY_REF := ONLY_ENDPOINT], [], map[])
  const ONLY_OUTPUT := Observation(PhaseEvent(Output, ONLY_COMMAND.id), Output, ONLY_COMMAND.id, ONLY_REF, 1, "b",
                                   ONLY_COMMAND.lease, "", false, NoError, false)

  /** One endpoint is written, claimed, and its output reported and folded. */
  const RUN_TO_OUTPUT := [
    DoWriteGraph(1, ONE_ENDPOINT, map[]), DoClaim(2, ONLY_ENDPOINT, Start, 1, 0),
    DoRecord(Output, ONLY_COMMAND, "", false), DoFold(ONLY_OUTPUT)]

  const WRITTEN :=
    INITIAL.(latest := 2, graph := ONE_ENDPOINT, history := map[1 := EMPTY_GRAPH, 2 := ONE_ENDPOINT])
  const CLAIMED := WRITTEN.(
    leases := map[ONLY_COMMAND.lease := FreshLease(ONLY_ENDPOINT, 0)],
    commands := map[ONLY_COMMAND.id := FreshRecord(ONLY_COMMAND)])
  const FINISHED := WRITTEN.(
    leases := map[ONLY_COMMAND.lease := FreshLease(ONLY_ENDPOINT, 0).(active := false)],
    commands := map[ONLY_COMMAND.id := FreshRecord(ONLY_COMMAND).(completed := ONLY_OUTPUT.id)],
    observations := [ONLY_OUTPUT.(folded := true)])

  lemma Claims()
    ensures Apply(INITIAL, RUN_TO_OUTPUT[0]) == WRITTEN && Apply(WRITTEN, RUN_TO_OUTPUT[1]) == CLAIMED
  {
    assert ClaimSucceeds(WRITTEN, 2, ONLY_ENDPOINT);
  }

  lemma Finishes()
    ensures Apply(CLAIMED, RUN_TO_OUTPUT[2]) == CLAIMED.(observations := [ONLY_OUTPUT])
    ensures Apply(CLAIMED.(observations := [ONLY_OUTPUT]), RUN_TO_OUTPUT[3]) == FINISHED
  {
  }

  lemma RunFrom(p: Project, s: Step, rest: seq<Step>)
    requires Allowed(p, s) && IsRunOf(Apply(p, s), rest)
    ensures IsRunOf(p, [s] + rest) && After(p, [s] + rest) == After(Apply(p, s), rest)
  {
    assert ([s] + rest)[1..] == rest;
  }

  lemma ReachesFinished()
    ensures IsRunOf(INITIAL, RUN_TO_OUTPUT) && After(INITIAL, RUN_TO_OUTPUT) == FINISHED && Inv(FINISHED)
  {
    OutputRun();
    RunKeepsInv(INITIAL, RUN_TO_OUTPUT);
  }

  lemma OutputRun()
    ensures IsRunOf(INITIAL, RUN_TO_OUTPUT) && After(INITIAL, RUN_TO_OUTPUT) == FINISHED
  {
    var s := RUN_TO_OUTPUT;
    Claims();
    Finishes();
    var reported := CLAIMED.(observations := [ONLY_OUTPUT]);
    RunFrom(reported, s[3], []);
    RunFrom(CLAIMED, s[2], [s[3]] + []);
    RunFrom(WRITTEN, s[1], [s[2]] + ([s[3]] + []));
    RunFrom(INITIAL, s[0], [s[1]] + ([s[2]] + ([s[3]] + [])));
    assert s == [s[0]] + ([s[1]] + ([s[2]] + ([s[3]] + [])));
  }

  /** Why the runtime must not reject a command it no longer holds as unfinished: after such a run the rejection
      takes the place of the completion, and the ended generation is runnable again. */
  lemma RejectingAFinishedCommandReopens()
    ensures var p := After(INITIAL, RUN_TO_OUTPUT);
            && IsRunOf(INITIAL, RUN_TO_OUTPUT) && HasTerminalObservation(p, ONLY_REF, 1)
            && !IsRunnable(p, ONLY_ENDPOINT) && IsRunnable(Reject(p, ONLY_COMMAND, StaleCommand), ONLY_ENDPOINT)
  {
    ReachesFinished();
    var p := FINISHED;
    var q := Reject(p, ONLY_COMMAND, StaleCommand);
    assert TerminalWitness(p, p.observations[0], ONLY_REF, 1);
    assert !HasTerminalObservation(q, ONLY_REF, 1) by {
      RejectionReopensIff(p, ONLY_COMMAND, StaleCommand, ONLY_REF, 1);
    }
    assert IsRunnable(q, ONLY_ENDPOINT);
  }
}
