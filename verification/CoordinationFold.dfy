/** Folding reported observations into commands and leases: exactly when a fold gets through, that an
    interrupted fold can simply be run again, and that an observation which cannot be folded blocks
    every later pass.
 */
module CoordinationFold {
  import opened Coordination
  import opened CoordinationRuns

  /** The observations still to be folded, oldest first. */
  function Unfolded(os: seq<Observation>): seq<Observation> {
    if os == [] then []
    else if !os[0].folded then [os[0]] + Unfolded(os[1..])
    else Unfolded(os[1..])
  }

  datatype Folding = Folding(state: Project, error: ErrorCode)

  /** Folds in order and stops at the first error, keeping what was folded before it. */
  function FoldAll(p: Project, es: seq<Observation>): Folding
    decreases |es|
  {
    if es == [] then Folding(p, NoError)
    else
      var r := FoldOne(p, es[0]);
      if r.Err? then Folding(p, r.code) else FoldAll(r.value, es[1..])
  }

  /** Distinct unfolded observations of the project. */
  predicate Queue(p: Project, es: seq<Observation>) {
    && DistinctEvents(es)
    && forall o <- es :: o in p.observations && !o.folded
  }

  /** The reported kind is one the named command can produce. */
  predicate ActionFits(p: Project, o: Observation)
    requires o.command in p.commands
  {
    if o.kind == Stopped then p.commands[o.command].command.action == Stop
    else IsRun(p.commands[o.command].command.action)
  }

  lemma QueuedIsSound(p: Project, o: Observation)
    requires Inv(p) && o in p.observations && !o.folded
    ensures o.kind != DispatchRejected && Matches(p, o) && IdentityComplete(o) && o.id == PhaseEvent(o.kind, o.command)
    ensures o.kind == Stopped ==> o.checkpoint != "" || o.nonResumable
  {
    assert ObservationOk(p, o);
  }

  /** One observation folds exactly when its kind fits its command and, for a start, its lease is still held. */
  lemma FoldOneIff(p: Project, o: Observation)
    requires Inv(p) && o in p.observations && !o.folded
    ensures Matches(p, o)
    ensures FoldOne(p, o).Ok? <==> ActionFits(p, o) && (o.kind == Started ==> p.leases[o.lease].active)
    ensures FoldOne(p, o).Err? ==> FoldOne(p, o).code != NoError
  {
    QueuedIsSound(p, o);
  }

  /** What a fold does to the leases and to the other queued observations. */
  lemma FoldOneEffect(p: Project, o: Observation, x: Observation)
    requires Inv(p) && o in p.observations && !o.folded && FoldOne(p, o).Ok?
    requires x in p.observations && !x.folded && x.id != o.id
    ensures var q := FoldOne(p, o).value;
            && x in q.observations && Matches(p, x) && Matches(q, x)
            && (ActionFits(q, x) <==> ActionFits(p, x))
            && (q.leases[x.lease].active <==> p.leases[x.lease].active && !(IsTerminal(o.kind) && o.lease == x.lease))
  {
    QueuedIsSound(p, o);
    QueuedIsSound(p, x);
    FoldKeepsInv(p, o);
    MarkFoldedKeeps(p.observations, o.id);
  }

  lemma QueueTail(p: Project, es: seq<Observation>)
    requires Inv(p) && Queue(p, es) && es != [] && FoldOne(p, es[0]).Ok?
    ensures Inv(FoldOne(p, es[0]).value) && Queue(FoldOne(p, es[0]).value, es[1..])
  {
    FoldKeepsInv(p, es[0]);
    forall o | o in es[1..]
      ensures o in FoldOne(p, es[0]).value.observations && !o.folded
    {
      var i :| 0 < i < |es| && es[i] == o;
      assert o in es;
      FoldOneEffect(p, es[0], o);
    }
  }

  /** No start is queued behind the end of its own lease, and every kind fits its command. */
  predicate Unblocked(p: Project, es: seq<Observation>) {
    forall i :: 0 <= i < |es| ==>
      && Matches(p, es[i]) && ActionFits(p, es[i])
      && (es[i].kind == Started ==>
            && p.leases[es[i].lease].active
            && forall j :: 0 <= j < i && IsTerminal(es[j].kind) ==> es[j].lease != es[i].lease)
  }

  /** A fold gets through exactly when nothing in the queue is blocked. */
  lemma {:induction false} FoldSucceedsIff(p: Project, es: seq<Observation>)
    requires Inv(p) && Queue(p, es)
    ensures FoldAll(p, es).error == NoError <==> Unblocked(p, es)
    decreases |es|
  {
    if es != [] {
      FoldOneIff(p, es[0]);
      if FoldOne(p, es[0]).Ok? {
        var q := FoldOne(p, es[0]).value;
        QueueTail(p, es);
        FoldSucceedsIff(q, es[1..]);
        TailUnblocked(p, es);
      }
    }
  }

  lemma TailUnblocked(p: Project, es: seq<Observation>)
    requires Inv(p) && Queue(p, es) && es != [] && FoldOne(p, es[0]).Ok?
    ensures Unblocked(p, es) <==> Unblocked(FoldOne(p, es[0]).value, es[1..])
  {
    var q := FoldOne(p, es[0]).value;
    var rest := es[1..];
    FoldOneIff(p, es[0]);
    forall i | 0 <= i < |rest|
      ensures rest[i] == es[i + 1]
      ensures Matches(p, rest[i]) && Matches(q, rest[i]) && (ActionFits(q, rest[i]) <==> ActionFits(p, rest[i]))
      ensures q.leases[rest[i].lease].active <==>
              p.leases[rest[i].lease].active && !(IsTerminal(es[0].kind) && es[0].lease == rest[i].lease)
    {
      assert es[i + 1] in es;
      FoldOneEffect(p, es[0], es[i + 1]);
    }
    if Unblocked(q, rest) {
      forall i | 0 <= i < |es|
        ensures && Matches(p, es[i]) && ActionFits(p, es[i])
                && (es[i].kind == Started ==>
                      && p.leases[es[i].lease].active
                      && forall j :: 0 <= j < i && IsTerminal(es[j].kind) ==> es[j].lease != es[i].lease)
      {
        if i > 0 {
          assert rest[i - 1] == es[i];
          forall j | 0 <= j < i && IsTerminal(es[j].kind) && es[i].kind == Started
            ensures es[j].lease != es[i].lease
          {
            if j > 0 {
              assert rest[j - 1] == es[j];
            }
          }
        }
      }
    }
  }

  // ---------------------------------------------------------------------------------------
  // Interrupted folds
  // ---------------------------------------------------------------------------------------

  lemma UnfoldedIsQueue(os: seq<Observation>)
    requires DistinctEvents(os)
    ensures DistinctEvents(Unfolded(os))
    ensures forall o :: o in Unfolded(os) <==> o in os && !o.folded
  {
    if os != [] {
      UnfoldedIsQueue(os[1..]);
      assert os == [os[0]] + os[1..];
      forall o | o in os[1..]
        ensures o.id != os[0].id
      {
      }
    }
  }

  lemma UnfoldedAfterMark(os: seq<Observation>)
    requires DistinctEvents(os) && Unfolded(os) != []
    ensures Unfolded(MarkFolded(os, Unfolded(os)[0].id)) == Unfolded(os)[1..]
  {
    UnfoldedIsQueue(os);
    var x := Unfolded(os)[0];
    if os[0].folded {
      UnfoldedAfterMark(os[1..]);
      assert x in os && !x.folded;
      assert os[0].id != x.id by {
        var i :| 0 <= i < |os| && os[i] == x;
      }
      assert MarkFolded(os, x.id) == [os[0]] + MarkFolded(os[1..], x.id);
    } else {
      assert MarkFolded(os, x.id)[1..] == os[1..];
    }
  }

  /** Folding the head of the queue leaves exactly its tail unfolded. */
  lemma FoldOneAdvances(p: Project)
    requires Inv(p) && Unfolded(p.observations) != [] && FoldOne(p, Unfolded(p.observations)[0]).Ok?
    ensures Unfolded(FoldOne(p, Unfolded(p.observations)[0]).value.observations) == Unfolded(p.observations)[1..]
  {
    UnfoldedIsQueue(p.observations);
    QueuedIsSound(p, Unfolded(p.observations)[0]);
    UnfoldedAfterMark(p.observations);
  }

  /** A fold interrupted after any number of observations and then run again on what is left reaches the
      state and the outcome of the uninterrupted fold. */
  lemma {:induction false} InterruptedFoldResumes(p: Project, k: nat)
    requires Inv(p) && k <= |Unfolded(p.observations)|
    requires FoldAll(p, Unfolded(p.observations)[..k]).error == NoError
    ensures var q := FoldAll(p, Unfolded(p.observations)[..k]).state;
            && Inv(q)
            && Unfolded(q.observations) == Unfolded(p.observations)[k..]
            && FoldAll(q, Unfolded(q.observations)) == FoldAll(p, Unfolded(p.observations))
    decreases k
  {
    var es := Unfolded(p.observations);
    if k > 0 {
      UnfoldedIsQueue(p.observations);
      var q := FoldOne(p, es[0]).value;
      assert FoldAll(p, es[..k]) == FoldAll(q, es[1..][..k - 1]) by {
        assert es[..k][0] == es[0] && es[..k][1..] == es[1..][..k - 1];
      }
      assert Inv(q) by { FoldKeepsInv(p, es[0]); }
      FoldOneAdvances(p);
      InterruptedFoldResumes(q, k - 1);
      assert es[1..][k - 1..] == es[k..];
    } else {
      assert es[..0] == [] && es[0..] == es;
    }
  }

  // ---------------------------------------------------------------------------------------
  // What can and cannot go wrong
  // ---------------------------------------------------------------------------------------

  /** The observation a stored command's report becomes. */
  function ReportOf(k: Kind, c: PhaseCommand, checkpoint: string, nonResumable: bool): Observation {
    Observation(PhaseEvent(k, c.id), k, c.id, c.endpoint, c.generation, c.binding, c.lease,
                checkpoint, nonResumable, NoError, false)
  }

  /** An output, failure or stop reported for a stored command folds without error in every later state
      in which it has not been folded yet. */
  lemma ReportedEndAlwaysFolds(p: Project, k: Kind, c: PhaseCommand, cp: string, nr: bool, steps: seq<Step>)
    requires Inv(p) && IsTerminal(k)
    requires c.id in p.commands && p.commands[c.id].command == c
    requires RecordPhase(p, k, c, cp, nr).Ok? && IsRunOf(RecordPhase(p, k, c, cp, nr).value, steps)
    ensures var q := After(RecordPhase(p, k, c, cp, nr).value, steps);
            ReportOf(k, c, cp, nr) in q.observations ==> FoldOne(q, ReportOf(k, c, cp, nr)).Ok?
  {
    var p' := RecordPhase(p, k, c, cp, nr).value;
    RecordKeepsInv(p, k, c, cp, nr);
    RunKeepsInv(p', steps);
    var q := After(p', steps);
    var o := ReportOf(k, c, cp, nr);
    if o in q.observations {
      FoldOneIff(q, o);
    }
  }

  /** The report is trusted about what the command was: a caller who reports under a stored command's id but
      with the other kind of action is accepted, and the observation fits exactly when it did not. */
  lemma ReportFitsIff(p: Project, k: Kind, c: PhaseCommand, cp: string, nr: bool)
    requires Inv(p) && c.id in p.commands && NewPhaseObservation(k, c, cp, nr).Ok?
    ensures ActionFits(p, NewPhaseObservation(k, c, cp, nr).value) <==>
            (c.action == Stop <==> p.commands[c.id].command.action == Stop)
  {
    assert CommandOk(p, c.id);
  }

  /** What a report of this kind has to say: a stop of a stop command with evidence of where it stopped, anything else
      of a run and without. */
  predicate WellReported(k: Kind, c: PhaseCommand, checkpoint: string, nonResumable: bool) {
    var evidence := checkpoint != "" || nonResumable;
    match k
    case Started => c.action != Stop && !evidence
    case Output => c.action != Stop && !evidence
    case Failed => c.action != Stop && !evidence
    case Stopped => c.action == Stop && evidence
    case DispatchRejected => false
  }

  /** The stored command, as the report names it. */
  predicate NamesStored(p: Project, c: PhaseCommand) {
    && c.id in p.commands
    && p.commands[c.id].command.(action := c.action, cause := c.cause) == c
    && c.endpoint.task != "" && c.generation > 0 && c.binding != ""
  }

  /** A report is accepted exactly when it is well reported, names the stored command with its endpoint, generation,
      binding and lease, and says what any earlier report of the kind said. It is recorded once. */
  lemma ReportAcceptedIff(p: Project, k: Kind, c: PhaseCommand, cp: string, nr: bool)
    requires Inv(p)
    ensures RecordPhase(p, k, c, cp, nr).Ok? <==>
            && WellReported(k, c, cp, nr) && NamesStored(p, c)
            && forall o <- p.observations :: o.id == PhaseEvent(k, c.id) ==> SaysSame(o, cp, nr)
    ensures RecordPhase(p, k, c, cp, nr).Ok? ==>
              RecordPhase(p, k, c, cp, nr).value ==
              if HasEvent(p, PhaseEvent(k, c.id)) then p
              else p.(observations := p.observations + [ReportOf(k, c, cp, nr)])
  {
    ReportFits(p, k, c, cp, nr);
    if WellReported(k, c, cp, nr) && NamesStored(p, c) {
      var r := ReportOf(k, c, cp, nr);
      forall o | o in p.observations && o.id == r.id ensures SamePayload(o, r) <==> SaysSame(o, cp, nr) {
        assert ObservationOk(p, o);
        assert CommandOk(p, c.id);
      }
      OneOfEachId(p, r.id);
    }
  }

  lemma ReportFits(p: Project, k: Kind, c: PhaseCommand, cp: string, nr: bool)
    requires Inv(p)
    ensures var o := NewPhaseObservation(k, c, cp, nr);
            WellReported(k, c, cp, nr) && NamesStored(p, c) <==>
            o.Ok? && c.id in p.commands && LeaseCheck(p, o.value) == NoError
    ensures WellReported(k, c, cp, nr) && NamesStored(p, c) ==>
              NewPhaseObservation(k, c, cp, nr) == Ok(ReportOf(k, c, cp, nr))
  {
    if c.id in p.commands {
      var stored := p.commands[c.id].command;
      assert CommandOk(p, c.id) && LeaseOk(p, stored.lease);
      assert stored.(action := c.action, cause := c.cause) == c <==>
             stored.endpoint == c.endpoint && stored.generation == c.generation && stored.binding == c.binding
             && stored.lease == c.lease;
    }
  }

  lemma OneOfEachId(p: Project, id: EventId)
    requires Inv(p)
    ensures forall a, b | a in p.observations && b in p.observations && a.id == b.id == id :: a == b
  {
    forall a, b | a in p.observations && b in p.observations && a.id == b.id == id ensures a == b {
      var i :| 0 <= i < |p.observations| && p.observations[i] == a;
      var j :| 0 <= j < |p.observations| && p.observations[j] == b;
    }
  }

  predicate SaysSame(o: Observation, checkpoint: string, nonResumable: bool) {
    o.checkpoint == checkpoint && o.nonResumable == nonResumable && o.error == NoError
  }

  /** An unfolded observation that does not fit its command, or a start whose lease is gone. */
  predicate Stuck(p: Project, o: Observation) {
    && o in p.observations && !o.folded && Matches(p, o)
    && (!ActionFits(p, o) || (o.kind == Started && !p.leases[o.lease].active))
  }

  lemma FoldKeepsStuck(p: Project, x: Observation, o: Observation)
    requires Inv(p) && Stuck(p, o) && Allowed(p, DoFold(x)) && FoldOne(p, x).Ok?
    ensures Stuck(FoldOne(p, x).value, o)
  {
    FoldOneIff(p, o);
    if x.id != o.id {
      FoldOneEffect(p, x, o);
    }
  }

  lemma StuckCarries(p: Project, q: Project, o: Observation)
    requires Stuck(p, o) && Evolves(p, q) && p.observations <= q.observations
    ensures Stuck(q, o)
  {
  }

  lemma OtherStepsExtend(p: Project, s: Step)
    requires !s.DoFold?
    ensures p.observations <= Apply(p, s).observations
  {
  }

  lemma StepKeepsStuck(p: Project, s: Step, o: Observation)
    requires Inv(p) && Allowed(p, s) && Stuck(p, o)
    ensures Stuck(Apply(p, s), o)
  {
    if s.DoFold? {
      if FoldOne(p, s.observation).Ok? {
        FoldKeepsStuck(p, s.observation, o);
      }
    } else {
      StepKeepsInv(p, s);
      OtherStepsExtend(p, s);
      StuckCarries(p, Apply(p, s), o);
    }
  }

  lemma StuckBlocks(p: Project, o: Observation)
    requires Inv(p) && Stuck(p, o)
    ensures FoldAll(p, Unfolded(p.observations)).error != NoError
  {
    var es := Unfolded(p.observations);
    UnfoldedIsQueue(p.observations);
    FoldSucceedsIff(p, es);
    var i :| 0 <= i < |es| && es[i] == o;
  }

  /** A stuck observation stays stuck, and no later fold of the run ever succeeds. */
  lemma {:induction false} StuckForever(p: Project, steps: seq<Step>, o: Observation)
    requires Inv(p) && IsRunOf(p, steps) && Stuck(p, o)
    ensures Stuck(After(p, steps), o)
    ensures FoldAll(After(p, steps), Unfolded(After(p, steps).observations)).error != NoError
    decreases |steps|
  {
    if steps == [] {
      StuckBlocks(p, o);
    } else {
      StepKeepsInv(p, steps[0]);
      StepKeepsStuck(p, steps[0], o);
      StuckForever(Apply(p, steps[0]), steps[1..], o);
    }
  }

  /** A start reported after its lease was released is accepted, and from then on every fold fails. */
  lemma LateStartBlocksForever(p: Project, c: PhaseCommand, steps: seq<Step>)
    requires Inv(p) && c.id in p.commands && p.commands[c.id].command == c
    requires c.lease in p.leases && !p.leases[c.lease].active
    requires !HasEvent(p, PhaseEvent(Started, c.id))
    requires RecordPhase(p, Started, c, "", false).Ok?
    requires IsRunOf(RecordPhase(p, Started, c, "", false).value, steps)
    ensures var q := After(RecordPhase(p, Started, c, "", false).value, steps);
            FoldAll(q, Unfolded(q.observations)).error != NoError
  {
    var p' := RecordPhase(p, Started, c, "", false).value;
    RecordKeepsInv(p, Started, c, "", false);
    var o := ReportOf(Started, c, "", false);
    assert p'.observations == p.observations + [o];
    assert o in p'.observations;
    QueuedIsSound(p', o);
    StuckForever(p', steps, o);
  }

  /** Such a state is reached: the endpoint's output is folded first, and its start reported after. */
  lemma LateStartIsReached(steps: seq<Step>)
    requires IsRunOf(Apply(After(INITIAL, RUN_TO_OUTPUT), DoRecord(Started, ONLY_COMMAND, "", false)), steps)
    ensures IsRunOf(INITIAL, RUN_TO_OUTPUT)
    ensures var q := After(Apply(After(INITIAL, RUN_TO_OUTPUT), DoRecord(Started, ONLY_COMMAND, "", false)), steps);
            FoldAll(q, Unfolded(q.observations)).error != NoError
  {
    ReachesFinished();
    assert RecordPhase(FINISHED, Started, ONLY_COMMAND, "", false).Ok?;
    LateStartBlocksForever(FINISHED, ONLY_COMMAND, steps);
  }
}
