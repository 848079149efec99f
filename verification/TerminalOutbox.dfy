/** The outbox of phase results: an intent is recorded before a phase output is accepted, promoted to its final
    delivery afterwards or abandoned, and delivered to the Task Manager with as many dispatches as it takes.
    SHA-256 is an injective function, so a hash is represented by what it was taken of. Each operation's read
    and guarded write is one step.
 */
module TerminalOutbox {
  import opened Common

  datatype Status = Intent | Pending | Delivered | Abandoned

  /** The receipt of an accepted output; its fingerprint is the output it was taken of, when there is one. */
  datatype Receipt = Receipt(
    invocation: string, endpoint: string, generation: int, output: string, fingerprint: Option<string>)
  {
    /** The receipt is for the output: by its fingerprint, or without one by the output it holds. */
    predicate IsFor(text: string) {
      (if fingerprint.Some? then fingerprint.value else output) == text
    }
  }

  datatype Payload =
    | IntentBody(invocation: string, output: string)
    | FinalBody(receipt: Receipt, outputRef: string)
    | OtherBody(text: string)

  /** The request id of a phase output is derived from its intent. */
  datatype RequestId = OutputRequest(invocation: string, intent: Payload) | OtherRequest(name: string)

  datatype Obligation = Obligation(kind: string, request: RequestId)

  datatype Delivery = Delivery(
    obligation: Obligation, invocation: string, command: string, action: string, endpoint: string, generation: int,
    conversation: string, body: string, payload: Payload, seenRevision: int, targetKind: string, targetRef: string)

  /** What an identity hash is taken of: the two kinds name different fields. */
  datatype Identity =
    | FinalIdentity(delivery: Delivery)
    | IntentIdentity(invocation: string, obligation: Obligation, payload: Payload, targetKind: string)

  datatype DispatchId = Logical(request: RequestId) | Retry(request: RequestId, number: nat)

  datatype Row = Row(
    status: Status, invocation: string, payload: Payload, identity: Identity,
    intentPayload: Option<Payload>, intentIdentity: Option<Identity>,
    dispatch: DispatchId, attempts: nat, managerInput: Option<string>)

  /** The rows, and the obligations for which somebody was told that a final delivery exists: only those are
      ever delivered. */
  datatype Outbox = Outbox(rows: map<Obligation, Row>, ready: set<Obligation>)

  const EMPTY := Outbox(map[], {})

  datatype Answer = Accepted | Refused

  // ---------------------------------------------------------------------------------------
  // Operations
  // ---------------------------------------------------------------------------------------

  function IntentIdentityOf(d: Delivery): Identity {
    IntentIdentity(d.invocation, d.obligation, d.payload, d.targetKind)
  }

  /** A stored row answers a request only if it was made by the same one. */
  predicate Matches(r: Row, payload: Payload, identity: Identity, allowIntent: bool) {
    || (allowIntent && r.intentPayload == Some(payload) && r.intentIdentity == Some(identity))
    || (r.payload == payload && r.identity == identity)
  }

  function IntentRow(d: Delivery): Row {
    Row(Intent, d.invocation, d.payload, IntentIdentityOf(d), Some(d.payload), Some(IntentIdentityOf(d)),
        Logical(d.obligation.request), 0, None)
  }

  function FinalRow(d: Delivery): Row {
    Row(Pending, d.invocation, d.payload, FinalIdentity(d), None, None, Logical(d.obligation.request), 0, None)
  }

  function EnqueueIntent(s: Outbox, d: Delivery): (Answer, Outbox) {
    if d.obligation.kind != "phase_output" || d.invocation == "" then (Refused, s)
    else if d.obligation !in s.rows then (Accepted, s.(rows := s.rows[d.obligation := IntentRow(d)]))
    else (if Matches(s.rows[d.obligation], d.payload, IntentIdentityOf(d), true) then Accepted else Refused, s)
  }

  function Enqueue(s: Outbox, d: Delivery): (Answer, Outbox) {
    var o := d.obligation;
    if d.targetKind == "" || d.targetRef == "" then (Refused, s)
    else if o !in s.rows then (Accepted, Outbox(s.rows[o := FinalRow(d)], s.ready + {o}))
    else if Matches(s.rows[o], d.payload, FinalIdentity(d), false) then (Accepted, s.(ready := s.ready + {o}))
    else (Refused, s)
  }

  predicate IsFinal(s: Outbox, o: Obligation) {
    o in s.rows && (s.rows[o].status == Pending || s.rows[o].status == Delivered)
  }

  /** The final delivery carries the receipt of exactly the output the intent recorded. */
  predicate Fulfils(r: Row, d: Delivery) {
    && r.payload.IntentBody? && r.payload.invocation == d.invocation
    && d.payload.FinalBody?
    && d.payload.receipt.invocation == d.invocation && d.payload.receipt.endpoint == d.endpoint
    && d.payload.receipt.generation == d.generation
    && d.payload.receipt.IsFor(r.payload.output)
    && d.obligation.request == OutputRequest(d.invocation, r.payload)
    && r.intentPayload == Some(r.payload)
  }

  function PromotedRow(r: Row, d: Delivery): Row {
    r.(status := Pending, invocation := d.invocation, payload := d.payload, identity := FinalIdentity(d),
       dispatch := Logical(d.obligation.request))
  }

  function PromoteFinal(s: Outbox, d: Delivery): (Answer, Outbox) {
    var o := d.obligation;
    if o in s.rows && s.rows[o].status == Intent then
      if Fulfils(s.rows[o], d)
      then (Accepted, Outbox(s.rows[o := PromotedRow(s.rows[o], d)], s.ready + {o}))
      else (Refused, s)
    else if IsFinal(s, o) then (Accepted, s.(ready := s.ready + {o}))
    else Enqueue(s, d)
  }

  function AbandonIntent(s: Outbox, o: Obligation): Outbox {
    if o in s.rows && s.rows[o].status == Intent
    then s.(rows := s.rows[o := s.rows[o].(status := Abandoned, attempts := s.rows[o].attempts + 1)]) else s
  }

  /** Somebody looks whether the obligation has a final delivery, as the replay loop does. */
  function LookUpFinal(s: Outbox, o: Obligation): Outbox {
    if IsFinal(s, o) then s.(ready := s.ready + {o}) else s
  }

  /** A dispatch that failed for good is replaced, unless somebody replaced it already. */
  function RotateFailedDispatch(s: Outbox, o: Obligation, dispatch: DispatchId, inputFailed: bool): (bool, Outbox) {
    if o !in s.rows || s.rows[o].status != Pending then (false, s)
    else if s.rows[o].dispatch != dispatch then (true, s)
    else if !inputFailed then (false, s)
    else (true, s.(rows := s.rows[o := s.rows[o].(dispatch := Retry(o.request, s.rows[o].attempts + 1),
                                                  attempts := s.rows[o].attempts + 1)]))
  }

  function RecordFailure(s: Outbox, o: Obligation): Outbox {
    if o in s.rows then s.(rows := s.rows[o := s.rows[o].(attempts := s.rows[o].attempts + 1)]) else s
  }

  /** The status is not looked at again: what keeps an abandoned intent from being delivered is that nobody is
      ever told it is final. */
  function MarkDelivered(s: Outbox, o: Obligation, input: string): Outbox {
    if o in s.rows then s.(rows := s.rows[o := s.rows[o].(status := Delivered, managerInput := Some(input))]) else s
  }

  // ---------------------------------------------------------------------------------------
  // Runs
  // ---------------------------------------------------------------------------------------

  /** A delivery is a look at the row, the hand-over outside, and one of three endings. */
  datatype Step =
    | IntentStep(delivery: Delivery)
    | EnqueueStep(delivery: Delivery)
    | PromoteStep(delivery: Delivery)
    | AbandonStep(obligation: Obligation)
    | LookUpStep(obligation: Obligation)
    | RotateStep(obligation: Obligation, dispatch: DispatchId, inputFailed: bool)
    | FailureStep(obligation: Obligation)
    | DeliveredStep(obligation: Obligation, input: string)

  predicate Allowed(s: Outbox, x: Step) {
    (x.RotateStep? || x.DeliveredStep?) ==> x.obligation in s.ready
  }

  function Apply(s: Outbox, x: Step): Outbox {
    match x
    case IntentStep(d) => EnqueueIntent(s, d).1
    case EnqueueStep(d) => Enqueue(s, d).1
    case PromoteStep(d) => PromoteFinal(s, d).1
    case AbandonStep(o) => AbandonIntent(s, o)
    case LookUpStep(o) => LookUpFinal(s, o)
    case RotateStep(o, dispatch, failed) => RotateFailedDispatch(s, o, dispatch, failed).1
    case FailureStep(o) => RecordFailure(s, o)
    case DeliveredStep(o, input) => MarkDelivered(s, o, input)
  }

  predicate IsRunOf(s: Outbox, steps: seq<Step>)
    decreases |steps|
  {
    steps == [] || (Allowed(s, steps[0]) && IsRunOf(Apply(s, steps[0]), steps[1..]))
  }

  function After(s: Outbox, steps: seq<Step>): Outbox
    decreases |steps|
  {
    if steps == [] then s else After(Apply(s, steps[0]), steps[1..])
  }

  /** The row carries the receipt of the output the intent recorded, by its fingerprint or without one by the output
      itself, for the invocation, endpoint and generation of the delivery that promoted it. */
  predicate Answers(o: Obligation, intent: Payload, r: Row) {
    && intent.IntentBody? && r.payload.FinalBody? && r.identity.FinalIdentity?
    && o.request == OutputRequest(intent.invocation, intent)
    && var d, receipt := r.identity.delivery, r.payload.receipt;
       && d.obligation == o && d.payload == r.payload && d.invocation == intent.invocation
       && receipt.invocation == d.invocation && receipt.endpoint == d.endpoint && receipt.generation == d.generation
       && (receipt.fingerprint == Some(intent.output)
           || (receipt.fingerprint == None && receipt.output == intent.output))
  }

  /** A row that is or was an intent carries the intent's identity; a final one carries a final identity; and
      dispatches are numbered by the attempts. */
  ghost predicate RowOk(s: Outbox, o: Obligation)
    requires o in s.rows
  {
    var r := s.rows[o];
    && (r.status == Intent || r.status == Abandoned ==> r.identity.IntentIdentity? && r.dispatch == Logical(o.request))
    && (r.status == Intent || r.status == Abandoned ==> r.intentPayload == Some(r.payload))
    && (IsFinal(s, o) && r.intentPayload.Some? ==> Answers(o, r.intentPayload.value, r))
    && (r.dispatch == Logical(o.request)
        || (r.dispatch.Retry? && r.dispatch.request == o.request && 1 <= r.dispatch.number <= r.attempts))
  }

  ghost predicate Inv(s: Outbox) {
    && (forall o {:trigger RowOk(s, o)} | o in s.rows :: RowOk(s, o))
    && (forall o {:trigger IsFinal(s, o)} | o in s.ready :: IsFinal(s, o))
  }

  function Number(d: DispatchId): nat {
    if d.Logical? then 0 else d.number
  }

  /** From s to s' the obligation only moved forward. */
  ghost predicate Forward(s: Outbox, s': Outbox, o: Obligation) {
    o in s.rows ==>
      && o in s'.rows
      && s.rows[o].attempts <= s'.rows[o].attempts && s'.rows[o].intentPayload == s.rows[o].intentPayload
      && (s.rows[o].status == Delivered ==> s'.rows[o].status == Delivered)
      && (s.rows[o].status == Abandoned ==> s'.rows[o].status == Abandoned && s'.rows[o].payload == s.rows[o].payload)
      && (s.rows[o].status == Pending ==> s'.rows[o].status == Pending || s'.rows[o].status == Delivered)
      && (s'.rows[o].dispatch == s.rows[o].dispatch || Number(s'.rows[o].dispatch) > s.rows[o].attempts)
  }

  lemma PromotionKeepsRows(s: Outbox, d: Delivery, o: Obligation)
    requires Inv(s) && o in PromoteFinal(s, d).1.rows
    ensures RowOk(PromoteFinal(s, d).1, o)
  {
    if o in s.rows { assert RowOk(s, o); }
  }

  lemma StepKeepsRows(s: Outbox, x: Step, o: Obligation)
    requires Inv(s) && Allowed(s, x) && o in Apply(s, x).rows
    ensures RowOk(Apply(s, x), o)
  {
    if x.PromoteStep? {
      PromotionKeepsRows(s, x.delivery, o);
    } else {
      if o in s.rows { assert RowOk(s, o); }
      if o in s.ready { assert IsFinal(s, o); }
    }
  }

  lemma StepKeepsReady(s: Outbox, x: Step, o: Obligation)
    requires Inv(s) && Allowed(s, x) && o in Apply(s, x).ready
    ensures IsFinal(Apply(s, x), o)
  {
    if o in s.rows { assert RowOk(s, o); }
    if o in s.ready { assert IsFinal(s, o); }
  }

  lemma StepMovesForward(s: Outbox, x: Step, o: Obligation)
    requires Inv(s) && Allowed(s, x)
    ensures Forward(s, Apply(s, x), o)
  {
    if o in s.rows { assert RowOk(s, o); }
    if o in s.ready { assert IsFinal(s, o); }
  }

  lemma {:induction false} RunKeeps(s: Outbox, steps: seq<Step>, o: Obligation)
    requires Inv(s) && IsRunOf(s, steps)
    ensures Inv(After(s, steps)) && Forward(s, After(s, steps), o)
    decreases |steps|
  {
    if steps != [] {
      var s' := Apply(s, steps[0]);
      forall x | x in s'.rows ensures RowOk(s', x) { StepKeepsRows(s, steps[0], x); }
      forall x | x in s'.ready ensures IsFinal(s', x) { StepKeepsReady(s, steps[0], x); }
      StepMovesForward(s, steps[0], o);
      RunKeeps(s', steps[1..], o);
    }
  }

  // ---------------------------------------------------------------------------------------
  // Main results
  // ---------------------------------------------------------------------------------------

  /** In every run, what was delivered stays delivered and what was abandoned stays abandoned. */
  lemma EndsAreFinal(s: Outbox, steps: seq<Step>, o: Obligation)
    requires Inv(s) && IsRunOf(s, steps) && o in s.rows && s.rows[o].status in {Delivered, Abandoned}
    ensures o in After(s, steps).rows && After(s, steps).rows[o].status == s.rows[o].status
  {
    RunKeeps(s, steps, o);
  }

  /** An abandoned intent is refused by every way in: it can be neither promoted nor enqueued again, because
      its identity is that of an intent. */
  lemma AbandonedIsRefused(s: Outbox, d: Delivery)
    requires Inv(s) && d.obligation in s.rows && s.rows[d.obligation].status == Abandoned
    ensures PromoteFinal(s, d) == (Refused, s) && Enqueue(s, d) == (Refused, s)
    ensures d.obligation !in s.ready
  {
    assert RowOk(s, d.obligation);
    assert d.obligation in s.ready ==> IsFinal(s, d.obligation);
  }

  /** Only a delivery that carries the recorded output's receipt turns an intent into a final delivery, however
      the run goes on. */
  lemma PromotionMatchesIntent(s: Outbox, steps: seq<Step>, o: Obligation)
    requires Inv(s) && IsRunOf(s, steps) && o in s.rows && s.rows[o].status == Intent
    ensures IsFinal(After(s, steps), o) ==> Answers(o, s.rows[o].payload, After(s, steps).rows[o])
  {
    RunKeeps(s, steps, o);
    assert RowOk(s, o);
    if IsFinal(After(s, steps), o) { assert RowOk(After(s, steps), o); }
  }

  lemma {:induction false} RunSplits(s: Outbox, a: seq<Step>, b: seq<Step>)
    requires IsRunOf(s, a + b)
    ensures IsRunOf(s, a) && IsRunOf(After(s, a), b) && After(s, a + b) == After(After(s, a), b)
    decreases |a|
  {
    if a == [] {
      assert a + b == b;
    } else {
      assert (a + b)[1..] == a[1..] + b;
      RunSplits(Apply(s, a[0]), a[1..], b);
    }
  }

  /** A dispatch id that was replaced never comes back. */
  lemma DispatchIdsNeverRepeat(s: Outbox, a: seq<Step>, b: seq<Step>, o: Obligation)
    requires Inv(s) && IsRunOf(s, a + b) && o in s.rows
    ensures o in After(s, a).rows && o in After(s, a + b).rows
    ensures After(s, a).rows[o].dispatch != s.rows[o].dispatch
            ==> After(s, a + b).rows[o].dispatch != s.rows[o].dispatch
  {
    RunSplits(s, a, b);
    RunKeeps(s, a, o);
    RunKeeps(After(s, a), b, o);
    assert RowOk(s, o);
  }

  /** After an attempt to replace a dispatch, the caller is told to go on exactly when the delivery is still open and
      the dispatch it named is no longer the current one, whoever replaced it. */
  lemma RotationTells(s: Outbox, o: Obligation, dispatch: DispatchId, inputFailed: bool)
    requires Inv(s)
    ensures var r := RotateFailedDispatch(s, o, dispatch, inputFailed);
            r.0 <==> o in s.rows && s.rows[o].status == Pending && r.1.rows[o].dispatch != dispatch
  {
    if o in s.rows { assert RowOk(s, o); }
  }

  /** What a final delivery that is asked for is given: the row that is there, or a new one, and in each case only for
      the request that made it; and from then on it may be delivered. */
  lemma EnqueuedIs(s: Outbox, d: Delivery)
    ensures var q := Enqueue(s, d);
            && (q.0 == Accepted <==>
                  && d.targetKind != "" && d.targetRef != ""
                  && (d.obligation in s.rows ==>
                        s.rows[d.obligation].payload == d.payload && s.rows[d.obligation].identity == FinalIdentity(d)))
            && (q.0 == Accepted ==>
                  && q.1.ready == s.ready + {d.obligation}
                  && q.1.rows == if d.obligation in s.rows then s.rows
                                 else s.rows[d.obligation :=
                                   Row(Pending, d.invocation, d.payload, FinalIdentity(d), None, None,
                                       Logical(d.obligation.request), 0, None)])
            && (q.0 == Refused ==> q.1 == s)
  {
  }

  // ---------------------------------------------------------------------------------------
  // The table
  // ---------------------------------------------------------------------------------------

  /** A pending row after one more failed hand-over: counted, and with a new dispatch if the last failed for good. */
  function FailedOnce(o: Obligation, r: Row, inputFailed: bool): Row {
    r.(attempts := r.attempts + 1, dispatch := if inputFailed then Retry(o.request, r.attempts + 1) else r.dispatch)
  }

  /** What became of handing a delivery to the Task Manager. */
  datatype HandOver = Stored(input: string) | Failed(inputFailed: bool)

  /** A row after the replay: whatever is not pending is left alone. */
  function Replayed(o: Obligation, r: Row, result: HandOver): Row {
    if r.status != Pending then r
    else if result.Stored? then r.(status := Delivered, managerInput := Some(result.input))
    else FailedOnce(o, r, result.inputFailed)
  }

  /** All but the rows still to do are replayed. */
  ghost predicate ReplayedTo(before: map<Obligation, Row>, rows: map<Obligation, Row>, todo: set<Obligation>,
                             results: map<Obligation, HandOver>, ok: bool)
  {
    && rows.Keys == before.Keys && before.Keys <= results.Keys && todo <= before.Keys
    && (forall o <- todo :: before[o].status == Pending)
    && (forall o <- before :: rows[o] == if o in todo then before[o] else Replayed(o, before[o], results[o]))
    && (ok <==> forall o | o in before && before[o].status == Pending && o !in todo :: results[o] != Failed(false))
  }

  lemma ReplayedMore(before: map<Obligation, Row>, rows: map<Obligation, Row>, rows': map<Obligation, Row>,
                     todo: set<Obligation>, results: map<Obligation, HandOver>, ok: bool, o: Obligation)
    requires ReplayedTo(before, rows, todo, results, ok) && o in todo && rows'.Keys == rows.Keys
    requires rows'[o] == Replayed(o, rows[o], results[o]) && forall x | x in rows' && x != o :: rows'[x] == rows[x]
    ensures ReplayedTo(before, rows', todo - {o}, results, ok && results[o] != Failed(false))
  {
  }

  class Table {
    var rows: map<Obligation, Row>
    ghost var ready: set<Obligation>

    ghost function State(): Outbox
      reads this
    {
      Outbox(rows, ready)
    }

    constructor ()
      ensures State() == EMPTY && Inv(State())
    {
      rows, ready := map[], {};
    }

    method CheckExisting(o: Obligation, payload: Payload, identity: Identity, allowIntent: bool) returns (ok: bool)
      requires o in rows
      ensures ok <==> Matches(rows[o], payload, identity, allowIntent)
    {
      var r := rows[o];
      if allowIntent {
        if r.intentPayload == Some(payload) && r.intentIdentity == Some(identity) { return true; }
        if r.status == Intent && r.payload == payload && r.identity == identity { return true; }
      }
      return r.payload == payload && r.identity == identity;
    }

    method RecordIntent(d: Delivery) returns (a: Answer)
      modifies this
      ensures (a, State()) == EnqueueIntent(old(State()), d)
    {
      if d.obligation.kind != "phase_output" || d.invocation == "" { return Refused; }
      if d.obligation !in rows { rows := rows[d.obligation := IntentRow(d)]; }
      var ok := CheckExisting(d.obligation, d.payload, IntentIdentityOf(d), true);
      a := if ok then Accepted else Refused;
    }

    method EnqueueFinal(d: Delivery) returns (a: Answer)
      modifies this
      ensures (a, State()) == Enqueue(old(State()), d)
    {
      if d.targetKind == "" || d.targetRef == "" { return Refused; }
      if d.obligation !in rows { rows := rows[d.obligation := FinalRow(d)]; }
      var ok := CheckExisting(d.obligation, d.payload, FinalIdentity(d), false);
      if !ok { return Refused; }
      ready := ready + {d.obligation};
      a := Accepted;
    }

    method Promote(d: Delivery) returns (a: Answer)
      modifies this
      ensures (a, State()) == PromoteFinal(old(State()), d)
    {
      var o := d.obligation;
      if o in rows && rows[o].status == Intent {
        if !Fulfils(rows[o], d) { return Refused; }
        rows := rows[o := PromotedRow(rows[o], d)];
        ready := ready + {o};
        return Accepted;
      }
      if o in rows && (rows[o].status == Pending || rows[o].status == Delivered) {
        ready := ready + {o};
        return Accepted;
      }
      a := EnqueueFinal(d);
    }

    method Abandon(o: Obligation)
      modifies this
      ensures State() == AbandonIntent(old(State()), o)
    {
      if o in rows && rows[o].status == Intent {
        rows := rows[o := rows[o].(status := Abandoned, attempts := rows[o].attempts + 1)];
      }
    }

    /** Hands a delivery over, and records what came of it; a failed dispatch is replaced or counted. */
    method Deliver(o: Obligation, result: HandOver) returns (ok: bool)
      requires Inv(State()) && o in ready && o in rows
      modifies this
      ensures Inv(State()) && rows.Keys == old(rows).Keys
      ensures forall x | x in rows && x != o :: rows[x] == old(rows)[x]
      ensures old(rows)[o].status == Delivered ==> ok && State() == old(State())
      ensures old(rows)[o].status != Delivered && result.Stored?
              ==> ok && State() == MarkDelivered(old(State()), o, result.input)
      ensures old(rows)[o].status != Delivered && result.Failed? && result.inputFailed
              ==> ok && State() == RotateFailedDispatch(old(State()), o, old(rows)[o].dispatch, true).1
      ensures old(rows)[o].status != Delivered && result.Failed? && !result.inputFailed
              ==> !ok && State() == RecordFailure(old(State()), o)
      ensures rows[o] == Replayed(o, old(rows)[o], result)
      ensures old(rows)[o].status == Pending ==> (ok <==> result != Failed(false))
    {
      assert IsFinal(State(), o);
      if rows[o].status == Delivered { return true; }
      ghost var before := State();
      ghost var step: Step;
      match result {
        case Stored(input) =>
          step := DeliveredStep(o, input);
          rows := rows[o := rows[o].(status := Delivered, managerInput := Some(input))];
          ok := true;
        case Failed(inputFailed) =>
          if inputFailed {
            step := RotateStep(o, rows[o].dispatch, true);
            rows := rows[o := rows[o].(dispatch := Retry(o.request, rows[o].attempts + 1),
                                       attempts := rows[o].attempts + 1)];
          } else {
            step := FailureStep(o);
            rows := rows[o := rows[o].(attempts := rows[o].attempts + 1)];
          }
          ok := inputFailed;
      }
      assert State() == Apply(before, step);
      forall x | x in State().rows ensures RowOk(State(), x) { StepKeepsRows(before, step, x); }
      forall x | x in State().ready ensures IsFinal(State(), x) { StepKeepsReady(before, step, x); }
    }

    ghost method LookUp(o: Obligation)
      requires Inv(State()) && IsFinal(State(), o)
      modifies `ready
      ensures Inv(State()) && State() == LookUpFinal(old(State()), o) && o in ready
    {
      ghost var before := State();
      ready := ready + {o};
      forall x | x in State().rows ensures RowOk(State(), x) { StepKeepsRows(before, LookUpStep(o), x); }
      forall x | x in State().ready ensures IsFinal(State(), x) { StepKeepsReady(before, LookUpStep(o), x); }
    }

    /** Delivers every pending obligation once; how each hand-over ends is given. */
    method Replay(results: map<Obligation, HandOver>) returns (ok: bool)
      requires Inv(State()) && rows.Keys <= results.Keys
      modifies this
      ensures Inv(State()) && rows.Keys == old(rows).Keys
      ensures forall o <- old(rows) :: rows[o] == Replayed(o, old(rows)[o], results[o])
      ensures ok <==> forall o | o in old(rows) && old(rows)[o].status == Pending :: results[o] != Failed(false)
    {
      ok := true;
      ghost var before := rows;
      var todo := set o | o in rows && rows[o].status == Pending;
      while todo != {}
        invariant Inv(State()) && ReplayedTo(before, rows, todo, results, ok)
        decreases |todo|
      {
        var o :| o in todo;
        ghost var was := rows;
        LookUp(o);
        var one := Deliver(o, results[o]);
        ReplayedMore(before, was, rows, todo, results, ok, o);
        if !one { ok := false; }
        todo := todo - {o};
      }
    }
  }
}
