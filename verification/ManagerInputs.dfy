/** The durable retry machine of Task Manager inputs. Each transaction is one step over three tables: inputs,
    bounded invocations, and the bindings that carry a decision. Ids are hashes in the source and injective
    constructors here.
 */
module ManagerInputs {
  import opened Common
  import Ids

  datatype InputStatus = Pending | Dispatched | Completed | Failed

  datatype InvocationStatus = Prepared | Running | Waiting | Finished | Aborted | Stopped

  /** One input per project, kind and request id. */
  datatype InputRef = InputRef(kind: string, request: string)

  /** The invocation of one attempt at an input. */
  datatype InvocationId = Attempt(input: InputRef, number: int)

  datatype Input = Input(status: InputStatus, attempt: int, invocation: InvocationId, payloadHash: string,
                         evaluation: bool)
  datatype Invocation = Invocation(status: InvocationStatus, expires: int)
  datatype Binding = Binding(input: InputRef, decision: Option<string>, applied: Option<int>, dispatched: bool,
                             completed: bool)

  datatype Store = Store(
    inputs: map<InputRef, Input>,
    invocations: map<InvocationId, Invocation>,
    bindings: map<InvocationId, Binding>)

  const EMPTY := Store(map[], map[], map[])
  const MAX_ATTEMPTS := 3

  /** What a transaction reports: it acted, it found nothing to do, or it failed and was rolled back. */
  datatype Answer = Acted | Nothing | Error

  predicate Live(s: InvocationStatus) {
    s == Prepared || s == Running || s == Waiting
  }

  // ---------------------------------------------------------------------------------------
  // Transactions
  // ---------------------------------------------------------------------------------------

  /** Inputs at the invocation whose status is one of the given ones move to the new one. */
  function Move(inputs: map<InputRef, Input>, inv: InvocationId, from: set<InputStatus>,
                to: InputStatus): map<InputRef, Input>
  {
    map r | r in inputs ::
      if inputs[r].invocation == inv && inputs[r].status in from then inputs[r].(status := to) else inputs[r]
  }

  predicate IsAt(i: Input, inv: InvocationId, statuses: set<InputStatus>) {
    i.invocation == inv && i.status in statuses
  }

  predicate SomeAt(inputs: map<InputRef, Input>, inv: InvocationId, statuses: set<InputStatus>) {
    exists r <- inputs :: IsAt(inputs[r], inv, statuses)
  }

  function MoveInvocation(invocations: map<InvocationId, Invocation>, inv: InvocationId, from: set<InvocationStatus>,
                          to: InvocationStatus)
    : map<InvocationId, Invocation>
  {
    if inv in invocations && invocations[inv].status in from
    then invocations[inv := invocations[inv].(status := to)] else invocations
  }

  const LIVE := {Prepared, Running, Waiting}
  const ANY := {Pending, Dispatched, Completed, Failed}

  function Persist(s: Store, r: InputRef, hash: string, evaluation: bool, expires: int): (Answer, Store) {
    var inv := Attempt(r, 1);
    if r in s.inputs then
      if s.inputs[r].payloadHash != hash then (Error, s) else (Nothing, s)
    else if inv in s.invocations || inv in s.bindings then (Error, s)
    else (Acted, Store(s.inputs[r := Input(Pending, 1, inv, hash, evaluation)],
                       s.invocations[inv := Invocation(Prepared, expires)],
                       s.bindings[inv := Binding(r, None, None, false, false)]))
  }

  function MarkDispatched(s: Store, inv: InvocationId): (Answer, Store) {
    if !SomeAt(s.inputs, inv, {Pending}) && !SomeAt(s.inputs, inv, {Dispatched, Completed}) then (Error, s)
    else (Acted, Store(Move(s.inputs, inv, {Pending}, Dispatched),
                       MoveInvocation(s.invocations, inv, {Prepared}, Running),
                       if inv in s.bindings then s.bindings[inv := s.bindings[inv].(dispatched := true)]
                       else s.bindings))
  }

  function AcceptDecision(s: Store, inv: InvocationId, decision: string): (Answer, Store) {
    if inv !in s.bindings || (s.bindings[inv].decision.Some? && s.bindings[inv].decision.value != decision)
    then (Error, s)
    else (Acted, s.(bindings := s.bindings[inv := s.bindings[inv].(decision := Some(decision))]))
  }

  predicate MayComplete(s: Store, inv: InvocationId, decision: string, revision: int) {
    && revision > 0 && inv in s.bindings && s.bindings[inv].decision == Some(decision)
    && (s.bindings[inv].applied.None? || s.bindings[inv].applied.value == revision)
  }

  function Complete(s: Store, inv: InvocationId, decision: string, revision: int): (Answer, Store) {
    if !MayComplete(s, inv, decision, revision) then (Error, s)
    else (Acted, Store(Move(s.inputs, inv, ANY, Completed),
                       MoveInvocation(s.invocations, inv, LIVE, Finished),
                       s.bindings[inv := s.bindings[inv].(applied := Some(revision), completed := true)]))
  }

  predicate IsAttemptAt(s: Store, r: InputRef, inv: InvocationId) {
    r in s.inputs && s.inputs[r].invocation == inv
  }

  function FailExpired(s: Store, r: InputRef, inv: InvocationId, now: int): (Answer, Store) {
    if !IsAttemptAt(s, r, inv) || inv !in s.invocations || s.inputs[r].status != Pending
       || s.invocations[inv].expires > now || !Live(s.invocations[inv].status) then (Nothing, s)
    else (Acted, s.(inputs := s.inputs[r := s.inputs[r].(status := Failed)],
                    invocations := s.invocations[inv := s.invocations[inv].(status := Aborted)]))
  }

  function FailAbandoned(s: Store, inv: InvocationId, seen: InvocationStatus): (Answer, Store) {
    if inv !in s.invocations || s.invocations[inv].status != seen || !Live(seen) then (Nothing, s)
    else (Acted, s.(inputs := Move(s.inputs, inv, {Pending, Dispatched, Failed}, Failed),
                    invocations := s.invocations[inv := s.invocations[inv].(status := Aborted)]))
  }

  /** A failed input gets its next attempt; what was decided and applied goes with it. */
  function Rotate(s: Store, r: InputRef, inv: InvocationId, attempt: int, expires: int): (Answer, Store) {
    if !IsAttemptAt(s, r, inv) || s.inputs[r].status != Failed || s.inputs[r].attempt != attempt
       || attempt >= MAX_ATTEMPTS then (Nothing, s)
    else
      var next := Attempt(r, attempt + 1);
      if attempt + 1 <= 0 || next in s.invocations || next in s.bindings || inv !in s.bindings then (Error, s)
      else (Acted, Store(s.inputs[r := s.inputs[r].(status := Pending, attempt := attempt + 1, invocation := next)],
                         s.invocations[next := Invocation(Prepared, expires)],
                         s.bindings[next := s.bindings[inv].(dispatched := false, completed := false)]))
  }

  /** A phase evaluation whose exact result the graph already holds is closed without another attempt. */
  function CompleteApplied(s: Store, r: InputRef, inv: InvocationId, applied: bool): (Answer, Store) {
    if !IsAttemptAt(s, r, inv) || !s.inputs[r].evaluation || s.inputs[r].status !in {Pending, Failed} || !applied
    then (Nothing, s)
    else (Acted, Store(s.inputs[r := s.inputs[r].(status := Completed)],
                       MoveInvocation(s.invocations, inv, LIVE, Finished),
                       if inv in s.bindings then s.bindings[inv := s.bindings[inv].(completed := true)]
                       else s.bindings))
  }

  /** The last step of a rebase: the failed input is closed once its successor is stored. */
  function CloseRebased(s: Store, r: InputRef): (Answer, Store) {
    if r !in s.inputs || s.inputs[r].status != Failed then (Nothing, s)
    else (Acted, s.(inputs := s.inputs[r := s.inputs[r].(status := Completed)]))
  }

  predicate ValidTransition(from: InvocationStatus, to: InvocationStatus) {
    match from
    case Prepared => to == Running || to == Aborted || to == Stopped
    case Running => to == Waiting || to == Stopped || to == Finished || to == Aborted
    case Waiting => to == Running || to == Stopped || to == Aborted
    case _ => false
  }

  /** A move of the invocation alone, made by the runtime. */
  function Transition(s: Store, inv: InvocationId, from: InvocationStatus, to: InvocationStatus): (Answer, Store) {
    if !ValidTransition(from, to) || inv !in s.invocations || s.invocations[inv].status != from then (Error, s)
    else (Acted, s.(invocations := MoveInvocation(s.invocations, inv, {from}, to)))
  }

  // ---------------------------------------------------------------------------------------
  // Runs
  // ---------------------------------------------------------------------------------------

  datatype Step =
    | PersistStep(input: InputRef, hash: string, evaluation: bool, expires: int)
    | DispatchedStep(inv: InvocationId)
    | DecisionStep(inv: InvocationId, decision: string)
    | CompleteStep(inv: InvocationId, decision: string, revision: int)
    | ExpireStep(input: InputRef, inv: InvocationId, now: int)
    | AbandonStep(inv: InvocationId, seen: InvocationStatus)
    | RotateStep(input: InputRef, inv: InvocationId, attempt: int, expires: int)
    | AppliedStep(input: InputRef, inv: InvocationId, applied: bool)
    | RebasedStep(input: InputRef)
    | TransitionStep(inv: InvocationId, from: InvocationStatus, to: InvocationStatus)

  function Attempted(s: Store, x: Step): (Answer, Store) {
    match x
    case PersistStep(r, hash, evaluation, expires) => Persist(s, r, hash, evaluation, expires)
    case DispatchedStep(inv) => MarkDispatched(s, inv)
    case DecisionStep(inv, decision) => AcceptDecision(s, inv, decision)
    case CompleteStep(inv, decision, revision) => Complete(s, inv, decision, revision)
    case ExpireStep(r, inv, now) => FailExpired(s, r, inv, now)
    case AbandonStep(inv, seen) => FailAbandoned(s, inv, seen)
    case RotateStep(r, inv, attempt, expires) => Rotate(s, r, inv, attempt, expires)
    case AppliedStep(r, inv, applied) => CompleteApplied(s, r, inv, applied)
    case RebasedStep(r) => CloseRebased(s, r)
    case TransitionStep(inv, from, to) => Transition(s, inv, from, to)
  }

  function Apply(s: Store, x: Step): Store {
    Attempted(s, x).1
  }

  function After(s: Store, steps: seq<Step>): Store
    decreases |steps|
  {
    if steps == [] then s else After(Apply(s, steps[0]), steps[1..])
  }

  /** An input is at one of its own attempts, at most the third. */
  ghost predicate InputOk(s: Store, r: InputRef)
    requires r in s.inputs
  {
    && 1 <= s.inputs[r].attempt <= MAX_ATTEMPTS
    && s.inputs[r].invocation == Attempt(r, s.inputs[r].attempt)
  }

  /** There is an invocation, and a binding, for exactly each attempt an input has reached. */
  ghost predicate AttemptOk(s: Store, inv: InvocationId) {
    && (inv in s.invocations <==> inv in s.bindings)
    && (inv in s.invocations <==> inv.input in s.inputs && 1 <= inv.number <= s.inputs[inv.input].attempt)
    && (inv in s.bindings ==> s.bindings[inv].input == inv.input)
  }

  ghost predicate Inv(s: Store) {
    && (forall r {:trigger InputOk(s, r)} | r in s.inputs :: InputOk(s, r))
    && (forall i {:trigger AttemptOk(s, i)} :: AttemptOk(s, i))
  }

  /** From s to s' the input kept its identity and only moved forward. */
  ghost predicate Forward(s: Store, s': Store, r: InputRef) {
    r in s.inputs ==>
      && r in s'.inputs
      && s'.inputs[r].payloadHash == s.inputs[r].payloadHash && s'.inputs[r].evaluation == s.inputs[r].evaluation
      && s.inputs[r].attempt <= s'.inputs[r].attempt
      && (s.inputs[r].status == Completed ==> s'.inputs[r] == s.inputs[r])
  }

  lemma StepKeepsInputs(s: Store, x: Step, r: InputRef)
    requires Inv(s) && r in Apply(s, x).inputs
    ensures InputOk(Apply(s, x), r)
  {
    if r in s.inputs { assert InputOk(s, r); }
  }

  lemma StepKeepsAttempts(s: Store, x: Step, i: InvocationId)
    requires Inv(s)
    ensures AttemptOk(Apply(s, x), i)
  {
    assert AttemptOk(s, i);
    if x.RotateStep? && x.input in s.inputs {
      assert InputOk(s, x.input) && AttemptOk(s, s.inputs[x.input].invocation);
    }
  }

  lemma StepMovesForward(s: Store, x: Step, r: InputRef)
    requires Inv(s)
    ensures Forward(s, Apply(s, x), r)
  {
    if r in s.inputs { assert InputOk(s, r); }
  }

  lemma {:induction false} RunKeeps(s: Store, steps: seq<Step>, r: InputRef)
    requires Inv(s)
    ensures Inv(After(s, steps)) && Forward(s, After(s, steps), r)
    decreases |steps|
  {
    if steps != [] {
      var s' := Apply(s, steps[0]);
      forall x | x in s'.inputs ensures InputOk(s', x) { StepKeepsInputs(s, steps[0], x); }
      forall i ensures AttemptOk(s', i) { StepKeepsAttempts(s, steps[0], i); }
      StepMovesForward(s, steps[0], r);
      RunKeeps(s', steps[1..], r);
    }
  }

  // ---------------------------------------------------------------------------------------
  // Main results
  // ---------------------------------------------------------------------------------------

  /** In every interleaving, a completed input keeps its status, attempt and invocation for good. */
  lemma CompletedStaysCompleted(s: Store, steps: seq<Step>, r: InputRef)
    requires Inv(s) && r in s.inputs && s.inputs[r].status == Completed
    ensures r in After(s, steps).inputs && After(s, steps).inputs[r] == s.inputs[r]
  {
    RunKeeps(s, steps, r);
  }

  /** The attempt number never decreases and never passes three, and two states show the same invocation
      exactly when they are at the same attempt. */
  lemma AttemptsGrowToThree(s: Store, steps: seq<Step>, r: InputRef)
    requires Inv(s) && r in s.inputs
    ensures r in After(s, steps).inputs
    ensures var now, later := s.inputs[r], After(s, steps).inputs[r];
            && 1 <= now.attempt <= later.attempt <= MAX_ATTEMPTS
            && (later.invocation == now.invocation <==> later.attempt == now.attempt)
  {
    RunKeeps(s, steps, r);
    assert InputOk(s, r) && InputOk(After(s, steps), r);
  }

  lemma AnyStatus(x: InputStatus)
    ensures x in ANY
  {
    match x case Pending => case Dispatched => case Completed => case Failed =>
  }

  /** Completing absorbs an acknowledgement, before or after. */
  lemma CompletingAbsorbs(inputs: map<InputRef, Input>, inv: InvocationId)
    ensures Move(Move(inputs, inv, {Pending}, Dispatched), inv, ANY, Completed) == Move(inputs, inv, ANY, Completed)
    ensures Move(Move(inputs, inv, ANY, Completed), inv, {Pending}, Dispatched) == Move(inputs, inv, ANY, Completed)
  {
  }

  lemma FinishingAbsorbs(invs: map<InvocationId, Invocation>, inv: InvocationId)
    ensures MoveInvocation(MoveInvocation(invs, inv, {Prepared}, Running), inv, LIVE, Finished)
            == MoveInvocation(invs, inv, LIVE, Finished)
    ensures MoveInvocation(MoveInvocation(invs, inv, LIVE, Finished), inv, {Prepared}, Running)
            == MoveInvocation(invs, inv, LIVE, Finished)
  {
  }

  /** The completion of a decision and the acknowledgement of a dispatch commute: whichever comes first, every
      input and every invocation ends with the same status. */
  lemma CompletionAndDispatchCommute(s: Store, inv: InvocationId, decision: string, revision: int)
    ensures var a := MarkDispatched(Complete(s, inv, decision, revision).1, inv).1;
            var b := Complete(MarkDispatched(s, inv).1, inv, decision, revision).1;
            a.inputs == b.inputs && a.invocations == b.invocations
  {
    var m := MarkDispatched(s, inv).1;
    assert MayComplete(m, inv, decision, revision) <==> MayComplete(s, inv, decision, revision);
    if MayComplete(s, inv, decision, revision) {
      CompletingAbsorbs(s.inputs, inv);
      FinishingAbsorbs(s.invocations, inv);
    }
  }

  /** A retry is never refused by the tables themselves: its invocation id is new and the binding it copies
      from is there. */
  lemma RotationNeverFails(s: Store, r: InputRef, inv: InvocationId, attempt: int, expires: int)
    requires Inv(s)
    ensures Rotate(s, r, inv, attempt, expires).0 != Error
    ensures Rotate(s, r, inv, attempt, expires).0 == Acted <==>
            r in s.inputs && s.inputs[r].status == Failed && attempt == s.inputs[r].attempt < MAX_ATTEMPTS
            && inv == Attempt(r, attempt)
  {
    if r in s.inputs {
      assert InputOk(s, r) && AttemptOk(s, s.inputs[r].invocation) && AttemptOk(s, Attempt(r, s.inputs[r].attempt + 1));
    }
  }

  /** Completing an attempt completes its input exactly when the input is still at that attempt; the completion
      of an attempt that was given up leaves the input as it is. */
  lemma CompletionCounts(s: Store, inv: InvocationId, decision: string, revision: int)
    requires Inv(s) && MayComplete(s, inv, decision, revision)
    ensures inv.input in s.inputs
    ensures var s' := Complete(s, inv, decision, revision).1;
            && (inv.number == s.inputs[inv.input].attempt ==>
                  s'.inputs == s.inputs[inv.input := s.inputs[inv.input].(status := Completed)])
            && (inv.number != s.inputs[inv.input].attempt ==> s'.inputs == s.inputs)
  {
    assert AttemptOk(s, inv);
    forall r | r in s.inputs
      ensures s.inputs[r].invocation == inv <==> r == inv.input && inv.number == s.inputs[r].attempt
    {
      assert InputOk(s, r);
    }
    var s' := Complete(s, inv, decision, revision).1;
    if inv.number == s.inputs[inv.input].attempt {
      var done := s.inputs[inv.input := s.inputs[inv.input].(status := Completed)];
      assert s'.inputs.Keys == done.Keys;
      forall r | r in done ensures s'.inputs[r] == done[r] {
        AnyStatus(s.inputs[r].status);
        assert s.inputs[r].invocation == inv <==> r == inv.input;
      }
    }
  }

  /** After the third failure an input is never tried again; all that can still happen is that it is closed. */
  lemma {:induction false} ThirdFailureIsFinal(s: Store, steps: seq<Step>, r: InputRef)
    requires Inv(s) && r in s.inputs && s.inputs[r].attempt == MAX_ATTEMPTS && s.inputs[r].status in {Failed, Completed}
    ensures r in After(s, steps).inputs
    ensures var i := After(s, steps).inputs[r]; i.attempt == MAX_ATTEMPTS && i.status in {Failed, Completed}
    decreases |steps|
  {
    if steps != [] {
      var s' := Apply(s, steps[0]);
      assert InputOk(s, r);
      RunKeeps(s, [steps[0]], r);
      assert [steps[0]][1..] == [];
      assert After(s, [steps[0]]) == s' by { assert After(s', []) == s'; }
      assert InputOk(s', r);
      StepStaysFinal(s, steps[0], r);
      ThirdFailureIsFinal(s', steps[1..], r);
    }
  }

  lemma StepStaysFinal(s: Store, x: Step, r: InputRef)
    requires Inv(s) && r in s.inputs && s.inputs[r].attempt == MAX_ATTEMPTS && s.inputs[r].status in {Failed, Completed}
    ensures r in Apply(s, x).inputs && Apply(s, x).inputs[r].status in {Failed, Completed}
  {
  }

  // ---------------------------------------------------------------------------------------
  // What was decided goes with every retry
  // ---------------------------------------------------------------------------------------

  /** The binding of the attempt an input is at. */
  ghost predicate Bound(s: Store, r: InputRef) {
    r in s.inputs && s.inputs[r].invocation in s.bindings
  }

  /** From s to s' the input lost neither the decision nor the applied revision of the attempt it is at. */
  ghost predicate KeepsDecision(s: Store, s': Store, r: InputRef)
    requires Bound(s, r) && Bound(s', r)
  {
    var b, b' := s.bindings[s.inputs[r].invocation], s'.bindings[s'.inputs[r].invocation];
    && b'.input == b.input == r
    && (b.decision.Some? ==> b'.decision == b.decision)
    && (b.applied.Some? ==> b'.applied == b.applied)
  }

  lemma AtAttempt(s: Store, r: InputRef)
    requires Inv(s) && r in s.inputs
    ensures Bound(s, r) && s.bindings[s.inputs[r].invocation].input == r
  {
    assert InputOk(s, r) && AttemptOk(s, s.inputs[r].invocation);
  }

  lemma OneStep(s: Store, x: Step, r: InputRef)
    requires Inv(s) && r in s.inputs
    ensures Inv(Apply(s, x)) && r in Apply(s, x).inputs
  {
    RunKeeps(s, [x], r);
    assert [x][1..] == [];
    assert After(s, [x]) == Apply(s, x) by { assert After(Apply(s, x), []) == Apply(s, x); }
  }

  lemma StepKeepsDecision(s: Store, x: Step, r: InputRef)
    requires Inv(s) && r in s.inputs
    ensures Bound(s, r) && Bound(Apply(s, x), r) && KeepsDecision(s, Apply(s, x), r)
  {
    OneStep(s, x, r);
    AtAttempt(s, r);
    AtAttempt(Apply(s, x), r);
    assert InputOk(s, r);
  }

  /** Once the attempt an input is at has a decision, or an applied revision, the attempt it is at has that one in
      every later state, however often it failed and was retried in between. */
  lemma {:induction false} DecisionGoesWithRetries(s: Store, steps: seq<Step>, r: InputRef)
    requires Inv(s) && r in s.inputs
    ensures Bound(s, r) && Bound(After(s, steps), r) && KeepsDecision(s, After(s, steps), r)
    decreases |steps|
  {
    AtAttempt(s, r);
    if steps != [] {
      var s' := Apply(s, steps[0]);
      OneStep(s, steps[0], r);
      StepKeepsDecision(s, steps[0], r);
      DecisionGoesWithRetries(s', steps[1..], r);
    }
  }

  /** So from then on no other decision is accepted for the input, and it is completed with that decision, and with
      the revision it was first applied at, or not at all. */
  lemma OnlyThatDecisionCompletes(s: Store, steps: seq<Step>, r: InputRef, decision: string, revision: int)
    requires Inv(s) && r in s.inputs && Bound(s, r) && s.bindings[s.inputs[r].invocation].decision.Some?
    ensures var b, q := s.bindings[s.inputs[r].invocation], After(s, steps);
            && Bound(q, r)
            && var inv := q.inputs[r].invocation;
               && (AcceptDecision(q, inv, decision).0 == Acted <==> decision == b.decision.value)
               && (Complete(q, inv, decision, revision).0 == Acted ==>
                     decision == b.decision.value && (b.applied.Some? ==> revision == b.applied.value))
               && (decision == b.decision.value && b.applied == Some(revision) && revision > 0 ==>
                     Complete(q, inv, decision, revision).0 == Acted)
  {
    DecisionGoesWithRetries(s, steps, r);
  }

  /** No attempt at the input has a decision that a later attempt does not share. */
  ghost predicate Agreed(s: Store, r: InputRef) {
    forall m, n | m <= n && Attempt(r, m) in s.bindings && Attempt(r, n) in s.bindings ::
      s.bindings[Attempt(r, m)].decision.Some? ==>
        s.bindings[Attempt(r, n)].decision == s.bindings[Attempt(r, m)].decision
  }

  ghost predicate HasOtherDecision(s: Store, inv: InvocationId, decision: string) {
    inv in s.bindings && s.bindings[inv].decision != Some(decision)
  }

  /** A first decision for an attempt that was given up, other than what a later attempt has. */
  ghost predicate DecidesTooLate(s: Store, x: Step, r: InputRef) {
    && x.DecisionStep? && x.inv.input == r && x.inv in s.bindings && s.bindings[x.inv].decision.None?
    && exists n | n > x.inv.number :: HasOtherDecision(s, Attempt(r, n), x.decision)
  }

  lemma RotationKeepsAgreed(s: Store, x: Step, r: InputRef)
    requires Inv(s) && Agreed(s, r) && x.RotateStep?
    ensures Agreed(Apply(s, x), r)
  {
    var s' := Apply(s, x);
    if x.input == r && r in s.inputs {
      var now := s.inputs[r].attempt;
      assert InputOk(s, r) && AttemptOk(s, Attempt(r, now));
      forall m | Attempt(r, m) in s.bindings ensures m <= now { assert AttemptOk(s, Attempt(r, m)); }
    }
  }

  lemma DecisionKeepsAgreedIff(s: Store, x: Step, r: InputRef)
    requires Agreed(s, r) && x.DecisionStep?
    ensures Agreed(Apply(s, x), r) <==> !DecidesTooLate(s, x, r)
  {
    var s' := Apply(s, x);
    if DecidesTooLate(s, x, r) {
      var n :| n > x.inv.number && HasOtherDecision(s, Attempt(r, n), x.decision);
      assert s'.bindings[Attempt(r, n)] == s.bindings[Attempt(r, n)];
      assert Attempt(r, x.inv.number) == x.inv;
    } else {
      forall m, n | m <= n && Attempt(r, m) in s'.bindings && Attempt(r, n) in s'.bindings
                    && s'.bindings[Attempt(r, m)].decision.Some?
        ensures s'.bindings[Attempt(r, n)].decision == s'.bindings[Attempt(r, m)].decision
      {
        assert n > m && Attempt(r, m) == x.inv && s.bindings[x.inv].decision.None? ==>
            !HasOtherDecision(s, Attempt(r, n), x.decision);
      }
    }
  }

  /** The attempts at an input come to disagree exactly when one that was given up is decided too late. */
  lemma StepKeepsAgreedIff(s: Store, x: Step, r: InputRef)
    requires Inv(s) && Agreed(s, r)
    ensures Agreed(Apply(s, x), r) <==> !DecidesTooLate(s, x, r)
  {
    match x {
      case DecisionStep(_, _) => DecisionKeepsAgreedIff(s, x, r);
      case RotateStep(_, _, _, _) => RotationKeepsAgreed(s, x, r);
      case PersistStep(_, _, _, _) =>
        forall m | Attempt(r, m) in s.bindings ensures r in s.inputs { assert AttemptOk(s, Attempt(r, m)); }
      case _ =>
    }
  }

  ghost predicate AgreedThroughout(s: Store, steps: seq<Step>, r: InputRef)
    decreases |steps|
  {
    Agreed(s, r) && (steps == [] || AgreedThroughout(Apply(s, steps[0]), steps[1..], r))
  }

  ghost predicate NeverTooLate(s: Store, steps: seq<Step>, r: InputRef)
    decreases |steps|
  {
    steps == [] || (!DecidesTooLate(s, steps[0], r) && NeverTooLate(Apply(s, steps[0]), steps[1..], r))
  }

  /** Over every run: the attempts at an input agree in each state exactly when no step decides one too late. */
  lemma {:induction false} RunKeepsAgreedIff(s: Store, steps: seq<Step>, r: InputRef)
    requires Inv(s) && Agreed(s, r)
    ensures AgreedThroughout(s, steps, r) <==> NeverTooLate(s, steps, r)
    decreases |steps|
  {
    if steps != [] {
      StepKeepsAgreedIff(s, steps[0], r);
      var s' := Apply(s, steps[0]);
      RunKeeps(s, steps[..1], r);
      assert steps[..1][1..] == [];
      assert After(s, steps[..1]) == s' by { assert After(s', []) == s'; }
      if Agreed(s', r) { RunKeepsAgreedIff(s', steps[1..], r); }
    }
  }

  const ONLY_INPUT := InputRef("message", "1")

  /** An abandoned first attempt and its retry, each decided its own way. */
  const DECIDED_TWICE := [
    PersistStep(ONLY_INPUT, "hash", false, 90), AbandonStep(Attempt(ONLY_INPUT, 1), Prepared),
    RotateStep(ONLY_INPUT, Attempt(ONLY_INPUT, 1), 1, 180), DecisionStep(Attempt(ONLY_INPUT, 2), "retry"),
    DecisionStep(Attempt(ONLY_INPUT, 1), "stop")]

  /** The tables when the input is at its second attempt. */
  const RETRIED := Store(
    map[ONLY_INPUT := Input(Pending, 2, Attempt(ONLY_INPUT, 2), "hash", false)],
    map[Attempt(ONLY_INPUT, 1) := Invocation(Aborted, 90), Attempt(ONLY_INPUT, 2) := Invocation(Prepared, 180)],
    map[Attempt(ONLY_INPUT, 1) := Binding(ONLY_INPUT, None, None, false, false),
        Attempt(ONLY_INPUT, 2) := Binding(ONLY_INPUT, None, None, false, false)])

  lemma ReachesRetry()
    ensures Apply(Apply(Apply(EMPTY, DECIDED_TWICE[0]), DECIDED_TWICE[1]), DECIDED_TWICE[2]) == RETRIED
  {
    var one := Apply(EMPTY, DECIDED_TWICE[0]);
    var two := Apply(one, DECIDED_TWICE[1]);
    assert two.inputs == map[ONLY_INPUT := Input(Failed, 1, Attempt(ONLY_INPUT, 1), "hash", false)];
  }

  /** A run from the empty tables in which two attempts at one input end with different decisions. */
  lemma OneInputDecidedTwice()
    ensures var s := After(EMPTY, DECIDED_TWICE);
            var first, second := Attempt(ONLY_INPUT, 1), Attempt(ONLY_INPUT, 2);
            && first in s.bindings && s.bindings[first].decision == Some("stop")
            && second in s.bindings && s.bindings[second].decision == Some("retry")
  {
    var one := Apply(EMPTY, DECIDED_TWICE[0]);
    var two := Apply(one, DECIDED_TWICE[1]);
    var four := Apply(RETRIED, DECIDED_TWICE[3]);
    ReachesRetry();
    FirstStep(EMPTY, DECIDED_TWICE, 0);
    FirstStep(one, DECIDED_TWICE, 1);
    FirstStep(two, DECIDED_TWICE, 2);
    FirstStep(RETRIED, DECIDED_TWICE, 3);
    FirstStep(four, DECIDED_TWICE, 4);
    assert DECIDED_TWICE[0..] == DECIDED_TWICE && DECIDED_TWICE[5..] == [];
  }

  lemma FirstStep(s: Store, steps: seq<Step>, i: nat)
    requires i < |steps|
    ensures After(s, steps[i..]) == After(Apply(s, steps[i]), steps[i + 1..])
  {
    assert steps[i..][1..] == steps[i + 1..];
  }

  // ---------------------------------------------------------------------------------------
  // The three tables as one record for each input
  // ---------------------------------------------------------------------------------------

  /** An input with the invocation and the binding of the attempt it is at. */
  datatype Current = Current(
    status: InputStatus, attempt: int, hash: string, evaluation: bool, running: InvocationStatus, expires: int,
    decision: Option<string>, applied: Option<int>, dispatched: bool, completed: bool)

  ghost function CurrentOf(s: Store, r: InputRef): Option<Current> {
    if r in s.inputs && s.inputs[r].invocation in s.invocations && s.inputs[r].invocation in s.bindings then
      var i := s.inputs[r];
      var v, b := s.invocations[i.invocation], s.bindings[i.invocation];
      Some(Current(i.status, i.attempt, i.payloadHash, i.evaluation, v.status, v.expires, b.decision, b.applied,
                   b.dispatched, b.completed))
    else None
  }

  /** An input as it is first stored. */
  function Submitted(hash: string, evaluation: bool, expires: int): Current {
    Current(Pending, 1, hash, evaluation, Prepared, expires, None, None, false, false)
  }

  predicate Unfinished(c: Current) {
    c.running == Prepared || c.running == Running || c.running == Waiting
  }

  function Finish(c: Current): Current {
    c.(running := if Unfinished(c) then Finished else c.running)
  }

  predicate MayMove(from: InvocationStatus, to: InvocationStatus) {
    || (from == Prepared && (to == Running || to == Stopped || to == Aborted))
    || (from == Running && (to == Waiting || to == Finished || to == Stopped || to == Aborted))
    || (from == Waiting && (to == Running || to == Stopped || to == Aborted))
  }

  /** What a transaction does to the record of an input: only one about the input, or about the attempt it is at, does
      anything. */
  function NextOf(c: Current, r: InputRef, x: Step): Current {
    var at := Attempt(r, c.attempt);
    match x
    case PersistStep(_, _, _, _) => c
    case DispatchedStep(inv) =>
      if inv != at || c.status == Failed then c
      else c.(status := if c.status == Pending then Dispatched else c.status,
              running := if c.running == Prepared then Running else c.running, dispatched := true)
    case DecisionStep(inv, d) => if inv == at && c.decision == None then c.(decision := Some(d)) else c
    case CompleteStep(inv, d, v) =>
      if inv == at && v > 0 && c.decision == Some(d) && (c.applied == None || c.applied == Some(v))
      then Finish(c).(status := Completed, applied := Some(v), completed := true) else c
    case ExpireStep(q, inv, now) =>
      if q == r && inv == at && c.status == Pending && now >= c.expires && Unfinished(c)
      then c.(status := Failed, running := Aborted) else c
    case AbandonStep(inv, seen) =>
      if inv == at && c.running == seen && Unfinished(c)
      then c.(running := Aborted, status := if c.status == Completed then Completed else Failed) else c
    case RotateStep(q, inv, n, expires) =>
      if q == r && inv == at && n == c.attempt && c.status == Failed && c.attempt < 3
      then c.(status := Pending, attempt := c.attempt + 1, running := Prepared, expires := expires,
              dispatched := false, completed := false) else c
    case AppliedStep(q, inv, applied) =>
      if q == r && inv == at && applied && c.evaluation && (c.status == Pending || c.status == Failed)
      then Finish(c).(status := Completed, completed := true) else c
    case RebasedStep(q) => if q == r && c.status == Failed then c.(status := Completed) else c
    case TransitionStep(inv, from, to) =>
      if inv == at && c.running == from && MayMove(from, to) then c.(running := to) else c
  }

  function Next(c: Option<Current>, r: InputRef, x: Step): Option<Current> {
    if c.Some? then Some(NextOf(c.value, r, x))
    else if x.PersistStep? && x.input == r then Some(Submitted(x.hash, x.evaluation, x.expires))
    else None
  }

  function NextAll(c: Option<Current>, r: InputRef, steps: seq<Step>): Option<Current>
    decreases |steps|
  {
    if steps == [] then c else NextAll(Next(c, r, steps[0]), r, steps[1..])
  }

  lemma AboutOthers(s: Store, r: InputRef, inv: InvocationId)
    requires Inv(s) && r in s.inputs
    ensures s.inputs[r].invocation == Attempt(r, s.inputs[r].attempt)
    ensures s.inputs[r].invocation in s.invocations && s.inputs[r].invocation in s.bindings
    ensures s.inputs[r].invocation == inv <==> inv == Attempt(r, s.inputs[r].attempt)
    ensures SomeAt(s.inputs, inv, ANY) && inv.input == r ==> inv == Attempt(r, s.inputs[r].attempt)
  {
    AtAttempt(s, r);
    assert InputOk(s, r) && AttemptOk(s, s.inputs[r].invocation);
    if SomeAt(s.inputs, inv, ANY) {
      var q :| q in s.inputs && IsAt(s.inputs[q], inv, ANY);
      assert InputOk(s, q);
    }
  }

  lemma DispatchRefines(s: Store, inv: InvocationId, r: InputRef)
    requires Inv(s) && r in s.inputs
    ensures CurrentOf(Apply(s, DispatchedStep(inv)), r) == Next(CurrentOf(s, r), r, DispatchedStep(inv))
  {
    AboutOthers(s, r, inv);
    if inv == s.inputs[r].invocation {
      if s.inputs[r].status == Failed {
        forall q | q in s.inputs && s.inputs[q].invocation == inv ensures q == r { assert InputOk(s, q); }
      } else if s.inputs[r].status == Pending {
        assert IsAt(s.inputs[r], inv, {Pending});
      } else {
        assert IsAt(s.inputs[r], inv, {Dispatched, Completed});
      }
    }
  }

  lemma PersistRefines(s: Store, x: Step, r: InputRef)
    requires Inv(s) && x.PersistStep?
    ensures CurrentOf(Apply(s, x), r) == Next(CurrentOf(s, r), r, x)
  {
    assert AttemptOk(s, Attempt(x.input, 1));
    if x.input in s.inputs { assert InputOk(s, x.input); }
    if r in s.inputs { AboutOthers(s, r, Attempt(x.input, 1)); }
  }

  lemma RotateRefines(s: Store, x: Step, r: InputRef)
    requires Inv(s) && r in s.inputs && x.RotateStep?
    ensures CurrentOf(Apply(s, x), r) == Next(CurrentOf(s, r), r, x)
  {
    AboutOthers(s, r, x.inv);
    RotationNeverFails(s, x.input, x.inv, x.attempt, x.expires);
    if x.input in s.inputs && x.input != r { assert InputOk(s, x.input); }
  }

  lemma CompleteRefines(s: Store, x: Step, r: InputRef)
    requires Inv(s) && r in s.inputs && x.CompleteStep?
    ensures CurrentOf(Apply(s, x), r) == Next(CurrentOf(s, r), r, x)
  {
    AboutOthers(s, r, s.inputs[r].invocation);
    AnyStatus(s.inputs[r].status);
  }

  lemma NamedRefines(s: Store, x: Step, r: InputRef)
    requires Inv(s) && r in s.inputs && (x.ExpireStep? || x.AppliedStep?)
    ensures CurrentOf(Apply(s, x), r) == Next(CurrentOf(s, r), r, x)
  {
    AboutOthers(s, r, s.inputs[r].invocation);
    assert x.input in s.inputs ==> InputOk(s, x.input);
  }

  /** Under the invariant the three tables do to each input what the record machine does. */
  lemma StepRefines(s: Store, x: Step, r: InputRef)
    requires Inv(s)
    ensures CurrentOf(Apply(s, x), r) == Next(CurrentOf(s, r), r, x)
  {
    if x.PersistStep? {
      PersistRefines(s, x, r);
    } else if r in s.inputs {
      AboutOthers(s, r, s.inputs[r].invocation);
      match x {
        case DispatchedStep(inv) => DispatchRefines(s, inv, r);
        case RotateStep(_, _, _, _) => RotateRefines(s, x, r);
        case CompleteStep(_, _, _) => CompleteRefines(s, x, r);
        case ExpireStep(_, _, _) => NamedRefines(s, x, r);
        case AppliedStep(_, _, _) => NamedRefines(s, x, r);
        case _ =>
      }
    }
  }

  /** Over every run, and in particular from the empty tables: what the tables hold of an input is what the record
      machine makes of the steps. */
  lemma {:induction false} RunRefines(s: Store, steps: seq<Step>, r: InputRef)
    requires Inv(s)
    ensures CurrentOf(After(s, steps), r) == NextAll(CurrentOf(s, r), r, steps)
    decreases |steps|
  {
    if steps != [] {
      var s' := Apply(s, steps[0]);
      StepRefines(s, steps[0], r);
      RunKeeps(s, steps[..1], r);
      assert steps[..1][1..] == [];
      assert After(s, steps[..1]) == s' by { assert After(s', []) == s'; }
      RunRefines(s', steps[1..], r);
    }
  }

  /** The step is about the input itself, or about the attempt it is at. */
  predicate About(c: Current, r: InputRef, x: Step) {
    match x
    case PersistStep(q, _, _, _) => q == r
    case DispatchedStep(inv) => inv == Attempt(r, c.attempt)
    case DecisionStep(inv, _) => inv == Attempt(r, c.attempt)
    case CompleteStep(inv, _, _) => inv == Attempt(r, c.attempt)
    case ExpireStep(q, _, _) => q == r
    case AbandonStep(inv, _) => inv == Attempt(r, c.attempt)
    case RotateStep(q, _, _, _) => q == r
    case AppliedStep(q, _, _) => q == r
    case RebasedStep(q) => q == r
    case TransitionStep(inv, _, _) => inv == Attempt(r, c.attempt)
  }

  /** What the caller is told: a submission or a decision that contradicts the first, a completion without its decision,
      an acknowledgement of a failed attempt and an impossible move are errors; what has nothing to act on is not. */
  function Reply(c: Current, r: InputRef, x: Step): Answer {
    match x
    case PersistStep(_, hash, _, _) => if hash == c.hash then Nothing else Error
    case DispatchedStep(_) => if c.status == Failed then Error else Acted
    case DecisionStep(_, d) => if c.decision == None || c.decision == Some(d) then Acted else Error
    case CompleteStep(_, d, v) =>
      if v > 0 && c.decision == Some(d) && (c.applied == None || c.applied == Some(v)) then Acted else Error
    case TransitionStep(_, from, to) => if c.running == from && MayMove(from, to) then Acted else Error
    case _ => if NextOf(c, r, x) == c then Nothing else Acted
  }

  lemma StepReplies(s: Store, x: Step, r: InputRef)
    requires Inv(s) && CurrentOf(s, r).Some? && About(CurrentOf(s, r).value, r, x)
    ensures Attempted(s, x).0 == Reply(CurrentOf(s, r).value, r, x)
  {
    AboutOthers(s, r, s.inputs[r].invocation);
    match x {
      case RotateStep(_, inv, n, expires) => RotationNeverFails(s, r, inv, n, expires);
      case DispatchedStep(inv) =>
        forall q | q in s.inputs && s.inputs[q].invocation == inv ensures q == r { assert InputOk(s, q); }
        assert s.inputs[r].status == Pending ==> IsAt(s.inputs[r], inv, {Pending});
        assert s.inputs[r].status in {Dispatched, Completed} ==> IsAt(s.inputs[r], inv, {Dispatched, Completed});
      case _ =>
    }
  }

  // ---------------------------------------------------------------------------------------
  // The tables
  // ---------------------------------------------------------------------------------------

  /** Every input but those still to do is moved, and any of them moved is counted. */
  ghost predicate MovedSoFar(inputs: map<InputRef, Input>, inv: InvocationId, from: set<InputStatus>, to: InputStatus,
                             todo: set<InputRef>, out: map<InputRef, Input>, affected: nat)
  {
    && todo <= inputs.Keys && out.Keys == inputs.Keys
    && (forall r <- inputs :: out[r] == if r in todo then inputs[r] else Move(inputs, inv, from, to)[r])
    && (affected > 0 <==> exists r <- inputs.Keys - todo :: IsAt(inputs[r], inv, from))
  }

  lemma MovedMore(inputs: map<InputRef, Input>, inv: InvocationId, from: set<InputStatus>, to: InputStatus,
                  todo: set<InputRef>, out: map<InputRef, Input>, affected: nat, r: InputRef)
    requires MovedSoFar(inputs, inv, from, to, todo, out, affected) && r in todo
    ensures if IsAt(inputs[r], inv, from)
            then MovedSoFar(inputs, inv, from, to, todo - {r}, out[r := inputs[r].(status := to)], affected + 1)
            else MovedSoFar(inputs, inv, from, to, todo - {r}, out, affected)
  {
    assert inputs.Keys - (todo - {r}) == (inputs.Keys - todo) + {r};
  }

  lemma MovedAll(inputs: map<InputRef, Input>, inv: InvocationId, from: set<InputStatus>, to: InputStatus,
                 out: map<InputRef, Input>, affected: nat)
    requires MovedSoFar(inputs, inv, from, to, {}, out, affected)
    ensures out == Move(inputs, inv, from, to) && (affected > 0 <==> SomeAt(inputs, inv, from))
  {
    assert inputs.Keys - {} == inputs.Keys;
  }

  /** Moves every input at the invocation that is in one of the statuses, and counts them. */
  method MoveAll(inputs: map<InputRef, Input>, inv: InvocationId, from: set<InputStatus>, to: InputStatus)
    returns (out: map<InputRef, Input>, affected: nat)
    ensures out == Move(inputs, inv, from, to)
    ensures affected > 0 <==> SomeAt(inputs, inv, from)
  {
    out, affected := inputs, 0;
    var todo := inputs.Keys;
    while todo != {}
      invariant MovedSoFar(inputs, inv, from, to, todo, out, affected)
      decreases |todo|
    {
      var r :| r in todo;
      MovedMore(inputs, inv, from, to, todo, out, affected, r);
      if inputs[r].invocation == inv && inputs[r].status in from {
        out, affected := out[r := inputs[r].(status := to)], affected + 1;
      }
      todo := todo - {r};
    }
    MovedAll(inputs, inv, from, to, out, affected);
  }

  class Tables {
    var inputs: map<InputRef, Input>
    var invocations: map<InvocationId, Invocation>
    var bindings: map<InvocationId, Binding>

    function State(): Store
      reads this
    {
      Store(inputs, invocations, bindings)
    }

    constructor ()
      ensures State() == EMPTY && Inv(State())
    {
      inputs, invocations, bindings := map[], map[], map[];
    }

    method PersistInput(r: InputRef, hash: string, evaluation: bool, expires: int) returns (a: Answer)
      modifies this
      ensures (a, State()) == Persist(old(State()), r, hash, evaluation, expires)
    {
      if r in inputs { return if inputs[r].payloadHash != hash then Error else Nothing; }
      var inv := Attempt(r, 1);
      if inv in invocations || inv in bindings { return Error; }
      invocations := invocations[inv := Invocation(Prepared, expires)];
      inputs := inputs[r := Input(Pending, 1, inv, hash, evaluation)];
      bindings := bindings[inv := Binding(r, None, None, false, false)];
      a := Acted;
    }

    method UpdateInputs(inv: InvocationId, from: set<InputStatus>, to: InputStatus) returns (affected: nat)
      modifies `inputs
      ensures inputs == Move(old(inputs), inv, from, to)
      ensures affected > 0 <==> SomeAt(old(inputs), inv, from)
    {
      inputs, affected := MoveAll(inputs, inv, from, to);
    }

    method AcknowledgeDispatch(inv: InvocationId) returns (a: Answer)
      modifies this
      ensures (a, State()) == MarkDispatched(old(State()), inv)
    {
      ghost var before := inputs;
      var affected := UpdateInputs(inv, {Pending}, Dispatched);
      if affected == 0 {
        assert inputs == before;
        if !SomeAt(inputs, inv, {Dispatched, Completed}) { return Error; }
      }
      invocations := MoveInvocation(invocations, inv, {Prepared}, Running);
      if inv in bindings { bindings := bindings[inv := bindings[inv].(dispatched := true)]; }
      a := Acted;
    }

    method CompleteDecision(inv: InvocationId, decision: string, revision: int) returns (a: Answer)
      modifies this
      ensures (a, State()) == Complete(old(State()), inv, decision, revision)
    {
      if revision <= 0 || inv !in bindings { return Error; }
      var b := bindings[inv];
      if b.decision != Some(decision) || (b.applied.Some? && b.applied.value != revision) { return Error; }
      var applied := if b.applied.Some? then b.applied else Some(revision);
      bindings := bindings[inv := b.(applied := applied, completed := true)];
      var affected := UpdateInputs(inv, ANY, Completed);
      invocations := MoveInvocation(invocations, inv, LIVE, Finished);
      a := Acted;
    }

    method FailAbandonedInvocation(inv: InvocationId, seen: InvocationStatus) returns (a: Answer)
      modifies this
      ensures (a, State()) == FailAbandoned(old(State()), inv, seen)
    {
      if inv !in invocations || invocations[inv].status != seen || !Live(seen) { return Nothing; }
      invocations := invocations[inv := invocations[inv].(status := Aborted)];
      var affected := UpdateInputs(inv, {Pending, Dispatched, Failed}, Failed);
      a := Acted;
    }

    method FailExpiredInvocation(r: InputRef, inv: InvocationId, now: int) returns (a: Answer)
      modifies this
      ensures (a, State()) == FailExpired(old(State()), r, inv, now)
    {
      if r !in inputs || inputs[r].invocation != inv || inv !in invocations { return Nothing; }
      if inputs[r].status != Pending || invocations[inv].expires > now || !Live(invocations[inv].status) {
        return Nothing;
      }
      invocations := invocations[inv := invocations[inv].(status := Aborted)];
      inputs := inputs[r := inputs[r].(status := Failed)];
      a := Acted;
    }

    method RotateFailedInvocation(r: InputRef, inv: InvocationId, attempt: int, expires: int) returns (a: Answer)
      modifies this
      ensures (a, State()) == Rotate(old(State()), r, inv, attempt, expires)
    {
      if r !in inputs { return Nothing; }
      var i := inputs[r];
      if i.status != Failed || i.invocation != inv || i.attempt != attempt || attempt >= MAX_ATTEMPTS {
        return Nothing;
      }
      var next := Attempt(r, attempt + 1);
      if attempt + 1 <= 0 || next in invocations || next in bindings || inv !in bindings { return Error; }
      invocations := invocations[next := Invocation(Prepared, expires)];
      bindings := bindings[next := bindings[inv].(dispatched := false, completed := false)];
      inputs := inputs[r := i.(status := Pending, attempt := attempt + 1, invocation := next)];
      a := Acted;
    }

    method CompleteAlreadyApplied(r: InputRef, inv: InvocationId, applied: bool) returns (a: Answer)
      modifies this
      ensures (a, State()) == CompleteApplied(old(State()), r, inv, applied)
    {
      if r !in inputs || inputs[r].invocation != inv { return Nothing; }
      if !inputs[r].evaluation || (inputs[r].status != Pending && inputs[r].status != Failed) || !applied {
        return Nothing;
      }
      inputs := inputs[r := inputs[r].(status := Completed)];
      invocations := MoveInvocation(invocations, inv, LIVE, Finished);
      if inv in bindings { bindings := bindings[inv := bindings[inv].(completed := true)]; }
      a := Acted;
    }
  }

  // ---------------------------------------------------------------------------------------
  // The printed ids
  // ---------------------------------------------------------------------------------------

  const NUL: char := '\0'

  predicate Plain(s: string) {
    NUL !in s
  }

  /** The text a hash is taken of: each part with a NUL after it. */
  function Terminated(parts: seq<string>): string {
    if parts == [] then "" else parts[0] + [NUL] + Terminated(parts[1..])
  }

  /** Up to its first NUL a text is determined. */
  lemma {:induction false} FirstPart(a: string, b: string, x: string, y: string)
    requires Plain(a) && Plain(b) && a + [NUL] + x == b + [NUL] + y
    ensures a == b && x == y
    decreases |a|
  {
    var s, t := a + [NUL] + x, b + [NUL] + y;
    assert (a != "" ==> a[0] in a && s[0] == a[0]) && (b != "" ==> b[0] in b && t[0] == b[0]);
    if a == "" || b == "" {
      assert s[0] == t[0];
      assert s[1..] == x && t[1..] == y;
    } else {
      assert s[0] == a[0] && t[0] == b[0];
      assert s[1..] == a[1..] + [NUL] + x && t[1..] == b[1..] + [NUL] + y;
      FirstPart(a[1..], b[1..], x, y);
    }
  }

  /** The parts are determined as long as none holds a NUL. */
  lemma {:induction false} TerminatedInjective(a: seq<string>, b: seq<string>)
    requires |a| == |b| && Terminated(a) == Terminated(b)
    requires forall i | 0 <= i < |a| :: Plain(a[i]) && Plain(b[i])
    ensures a == b
    decreases |a|
  {
    if a != [] {
      FirstPart(a[0], b[0], Terminated(a[1..]), Terminated(b[1..]));
      TerminatedInjective(a[1..], b[1..]);
      assert a == [a[0]] + a[1..] && b == [b[0]] + b[1..];
    }
  }

  /** No two texts share a hash, and a hash is printed without a NUL. */
  ghost predicate IsHash(h: string -> string) {
    (forall a, b :: h(a) == h(b) ==> a == b) && forall a :: Plain(h(a))
  }

  /** The parts an attempt's id is hashed from; only attempts after the first are numbered. */
  function InvocationParts(h: string -> string, project: string, r: InputRef, attempt: nat): seq<string> {
    var parts := [project, r.kind, r.request];
    if attempt <= 1 then parts else [h(Terminated(parts)), "attempt", Ids.Digits(attempt)]
  }

  function InvocationText(h: string -> string, project: string, r: InputRef, attempt: nat): string {
    "tm-invocation:" + h(Terminated(InvocationParts(h, project, r, attempt)))
  }

  lemma SameTerminated(h: string -> string, project: string, r: InputRef, m: nat, q: InputRef, n: nat)
    requires IsHash(h) && InvocationText(h, project, r, m) == InvocationText(h, project, q, n)
    ensures Terminated(InvocationParts(h, project, r, m)) == Terminated(InvocationParts(h, project, q, n))
  {
    var prefix := "tm-invocation:";
    var a, b := InvocationParts(h, project, r, m), InvocationParts(h, project, q, n);
    assert (prefix + h(Terminated(a)))[|prefix|..] == h(Terminated(a));
    assert (prefix + h(Terminated(b)))[|prefix|..] == h(Terminated(b));
  }

  lemma PartsPlain(h: string -> string, project: string, r: InputRef, attempt: nat)
    requires IsHash(h) && Plain(project) && Plain(r.kind) && Plain(r.request)
    ensures var parts := InvocationParts(h, project, r, attempt);
            |parts| == 3 && Plain(parts[0]) && Plain(parts[1]) && Plain(parts[2])
  {
    Ids.DigitsPlain(attempt);
    assert Plain("attempt");
  }

  /** A first attempt at an input of kind "attempt", in a project that is itself the hash of the other input. */
  ghost predicate Echoes(h: string -> string, project: string, r: InputRef, m: nat, q: InputRef, n: nat) {
    && m == 1 < n && r.kind == "attempt" && r.request == Ids.Digits(n)
    && project == h(Terminated([project, q.kind, q.request]))
  }

  /** As long as no part holds a NUL, two attempts share an id only if they are the same, or one echoes the other. */
  lemma InvocationTextInjective(h: string -> string, project: string, r: InputRef, m: nat, q: InputRef, n: nat)
    requires IsHash(h) && 1 <= m && 1 <= n && Plain(project)
    requires Plain(r.kind) && Plain(r.request) && Plain(q.kind) && Plain(q.request)
    ensures InvocationText(h, project, r, m) == InvocationText(h, project, q, n) <==>
            (r == q && m == n) || Echoes(h, project, r, m, q, n) || Echoes(h, project, q, n, r, m)
  {
    var xs, ys := InvocationParts(h, project, r, m), InvocationParts(h, project, q, n);
    var ps, qs := [project, r.kind, r.request], [project, q.kind, q.request];
    if InvocationText(h, project, r, m) == InvocationText(h, project, q, n) {
      SameTerminated(h, project, r, m, q, n);
      PartsPlain(h, project, r, m);
      PartsPlain(h, project, q, n);
      TerminatedInjective(xs, ys);
      assert xs[0] == ys[0] && xs[1] == ys[1] && xs[2] == ys[2];
      if m > 1 && n > 1 {
        Ids.DigitsInjective(m, n);
        TerminatedInjective(ps, qs);
        assert ps[1] == qs[1] && ps[2] == qs[2];
      }
    }
  }

  /** First attempts share an id exactly when kind and request, with the NUL between them, are the same text. */
  lemma FirstAttemptsCollideIff(h: string -> string, project: string, r: InputRef, q: InputRef)
    requires IsHash(h)
    ensures InvocationText(h, project, r, 1) == InvocationText(h, project, q, 1) <==>
            r.kind + [NUL] + r.request == q.kind + [NUL] + q.request
  {
    var a, b := r.kind + [NUL] + r.request, q.kind + [NUL] + q.request;
    FirstTerminated(project, r);
    FirstTerminated(project, q);
    if InvocationText(h, project, r, 1) == InvocationText(h, project, q, 1) {
      SameTerminated(h, project, r, 1, q, 1);
      var s, t := project + [NUL] + a + [NUL], project + [NUL] + b + [NUL];
      assert s[|project| + 1..|s| - 1] == a && t[|project| + 1..|t| - 1] == b;
    }
  }

  lemma FirstTerminated(project: string, r: InputRef)
    ensures Terminated([project, r.kind, r.request]) == project + [NUL] + (r.kind + [NUL] + r.request) + [NUL]
  {
    var parts := [project, r.kind, r.request];
    assert parts[1..] == [r.kind, r.request] && parts[1..][1..] == [r.request] && parts[1..][1..][1..] == [];
    assert Terminated([r.request]) == r.request + [NUL];
    assert Terminated([r.kind, r.request]) == r.kind + [NUL] + (r.request + [NUL]);
  }
}
