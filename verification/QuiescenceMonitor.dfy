/** The monitor that decides, from polls of a carrier's activity, that an execution was abandoned. Times are
    seconds; a provider may not know the last run or finish.
 */
module QuiescenceMonitor {

  type Key = string

  datatype Stamp = Unknown | At(time: int)

  datatype Activity = Activity(status: string, running: int, lastRun: Stamp, lastFinish: Stamp)

  const QUIESCENCE_GAP: int := 90
  const COLD_GAP: int := 180

  datatype Watch = Watch(activeAt: map<Key, int>, idleSince: map<Key, int>)

  const NOTHING_SEEN := Watch(map[], map[])

  // ---------------------------------------------------------------------------------------
  // One poll
  // ---------------------------------------------------------------------------------------

  predicate IsActive(a: Activity) {
    a.status == "running" || a.running > 0
  }

  predicate NotBefore(s: Stamp, t: int) {
    s.At? && s.time >= t
  }

  /** The carrier ran or finished something since the execution started. */
  predicate Observed(a: Activity, started: int) {
    IsActive(a) || NotBefore(a.lastRun, started) || NotBefore(a.lastFinish, started)
  }

  /** Judging an execution never seen at work from what the carrier remembers. */
  predicate ColdAbandoned(a: Activity, started: Stamp, now: int, gap: int) {
    && started.At? && gap > 0 && a.running == 0 && started.time <= now - gap
    && if a.lastFinish.At? then started.time <= a.lastFinish.time <= now - gap
       else a.status == "idle" && (a.lastRun.Unknown? || a.lastRun.time <= now - gap)
  }

  function FirstIdle(a: Activity, started: int, now: int): int {
    if NotBefore(a.lastFinish, started) then a.lastFinish.time else now
  }

  /** One poll: the verdict and what is remembered. */
  function Poll(w: Watch, key: Key, started: int, a: Activity, now: int): (bool, Watch) {
    if key == "" then (false, w)
    else if IsActive(a) then (false, Watch(w.activeAt[key := now], w.idleSince - {key}))
    else if key !in w.activeAt then
      if Observed(a, started) then
        var idle := FirstIdle(a, started, now);
        (idle + QUIESCENCE_GAP <= now, Watch(w.activeAt[key := now], w.idleSince[key := idle]))
      else (ColdAbandoned(a, At(started), now, COLD_GAP), w)
    else if key !in w.idleSince then (false, w.(idleSince := w.idleSince[key := now]))
    else (w.idleSince[key] + QUIESCENCE_GAP <= now, w)
  }

  function Forget(w: Watch, key: Key): Watch {
    Watch(w.activeAt - {key}, w.idleSince - {key})
  }

  class ExecutionMonitor {
    var activeAt: map<Key, int>
    var idleSince: map<Key, int>

    function State(): Watch
      reads this
    {
      Watch(activeAt, idleSince)
    }

    constructor ()
      ensures State() == NOTHING_SEEN
    {
      activeAt, idleSince := map[], map[];
    }

    method ExecutionAbandoned(key: Key, started: int, a: Activity, now: int) returns (abandoned: bool)
      modifies this
      ensures (abandoned, State()) == Poll(old(State()), key, started, a, now)
    {
      if key == "" { return false; }
      if IsActive(a) {
        activeAt := activeAt[key := now];
        idleSince := idleSince - {key};
        return false;
      }
      if key !in activeAt {
        if Observed(a, started) {
          activeAt := activeAt[key := now];
          var idleAt := now;
          if a.lastFinish.At? && a.lastFinish.time >= started { idleAt := a.lastFinish.time; }
          idleSince := idleSince[key := idleAt];
          return idleAt + QUIESCENCE_GAP <= now;
        }
        return ColdAbandoned(a, At(started), now, COLD_GAP);
      }
      if key !in idleSince {
        idleSince := idleSince[key := now];
        return false;
      }
      return idleSince[key] + QUIESCENCE_GAP <= now;
    }

    method ForgetExecution(key: Key)
      modifies this
      ensures State() == Forget(old(State()), key)
    {
      activeAt := activeAt - {key};
      idleSince := idleSince - {key};
    }
  }

  // ---------------------------------------------------------------------------------------
  // Traces
  // ---------------------------------------------------------------------------------------

  datatype Step = PollStep(key: Key, started: int, activity: Activity, now: int) | ForgetStep(key: Key)

  function Apply(w: Watch, s: Step): Watch {
    match s
    case PollStep(key, started, a, now) => Poll(w, key, started, a, now).1
    case ForgetStep(key) => Forget(w, key)
  }

  function After(steps: seq<Step>): Watch {
    if steps == [] then NOTHING_SEEN else Apply(After(steps[..|steps| - 1]), steps[|steps| - 1])
  }

  /** The verdict of the i-th step. */
  predicate Abandons(steps: seq<Step>, i: nat)
    requires i < |steps| && steps[i].PollStep?
  {
    var s := steps[i];
    Poll(After(steps[..i]), s.key, s.started, s.activity, s.now).0
  }

  /** The i-th step polls the execution. */
  predicate Polls(steps: seq<Step>, i: int, k: Key) {
    0 <= i < |steps| && steps[i].PollStep? && steps[i].key == k
  }

  predicate SeesActive(steps: seq<Step>, i: int, k: Key) {
    Polls(steps, i, k) && IsActive(steps[i].activity)
  }

  /** Polls of one execution that started at a given time: never before it, in the order of time, and with no
      forgetting between. Other executions come and go freely. */
  ghost predicate Timely(steps: seq<Step>, k: Key, started: int) {
    && k != "" && ForgetStep(k) !in steps
    && (forall i {:trigger Polls(steps, i, k)} | Polls(steps, i, k) ::
          steps[i].started == started && steps[i].now >= started)
    && (forall i, j {:trigger Polls(steps, i, k), Polls(steps, j, k)} |
          Polls(steps, i, k) && Polls(steps, j, k) && i <= j :: steps[i].now <= steps[j].now)
  }

  lemma TimelyPrefix(steps: seq<Step>, k: Key, started: int)
    requires Timely(steps, k, started) && steps != []
    ensures Timely(steps[..|steps| - 1], k, started)
  {
    var front := steps[..|steps| - 1];
    forall i | Polls(front, i, k) ensures front[i].started == started && front[i].now >= started {
      assert Polls(steps, i, k);
    }
    forall i, j | Polls(front, i, k) && Polls(front, j, k) && i <= j ensures front[i].now <= front[j].now {
      assert Polls(steps, i, k) && Polls(steps, j, k);
    }
  }

  /** What the monitor remembers of an execution, in terms of the polls: whoever was seen active is known, and
      the idle mark is no earlier than the start or any poll that saw activity. */
  ghost predicate Remembers(w: Watch, steps: seq<Step>, k: Key, started: int) {
    && (forall i {:trigger SeesActive(steps, i, k)} | SeesActive(steps, i, k) :: k in w.activeAt)
    && (k in w.idleSince ==>
          && k in w.activeAt && w.idleSince[k] >= started
          && forall i {:trigger SeesActive(steps, i, k)} | SeesActive(steps, i, k) :: steps[i].now <= w.idleSince[k])
  }

  lemma {:induction false} MonitorRemembers(steps: seq<Step>, k: Key, started: int)
    requires Timely(steps, k, started)
    ensures Remembers(After(steps), steps, k, started)
  {
    if steps != [] {
      var n := |steps| - 1;
      TimelyPrefix(steps, k, started);
      MonitorRemembers(steps[..n], k, started);
      RemembersNext(After(steps[..n]), steps, k, started);
    }
  }

  lemma RemembersNext(w: Watch, steps: seq<Step>, k: Key, started: int)
    requires Timely(steps, k, started) && steps != [] && Remembers(w, steps[..|steps| - 1], k, started)
    ensures Remembers(Apply(w, steps[|steps| - 1]), steps, k, started)
  {
    var n := |steps| - 1;
    var front := steps[..n];
    forall i | SeesActive(steps, i, k) && i != n ensures SeesActive(front, i, k) && front[i] == steps[i] {}
    assert steps[n] in steps;
    if Polls(steps, n, k) {
      forall i | SeesActive(steps, i, k) ensures steps[i].now <= steps[n].now {
        assert Polls(steps, i, k) && Polls(steps, n, k);
      }
    }
  }

  /** An execution is declared abandoned no sooner than 90 seconds after its start, and only when no poll of the
      last 90 seconds saw it active. */
  lemma AbandonedMeansQuiet(steps: seq<Step>, k: Key, started: int, n: nat)
    requires n < |steps| && steps[n].PollStep? && steps[n].key == k && Timely(steps[..n + 1], k, started)
    requires Abandons(steps, n)
    ensures steps[n].now >= started + 90
    ensures forall i | i <= n && SeesActive(steps, i, k) :: steps[i].now <= steps[n].now - 90
  {
    var upTo := steps[..n + 1];
    var front := steps[..n];
    assert upTo[..n] == front && upTo[n] == steps[n] && Polls(upTo, n, k);
    TimelyPrefix(upTo, k, started);
    MonitorRemembers(front, k, started);
    forall i | i <= n && SeesActive(steps, i, k) ensures steps[i].now <= steps[n].now - QUIESCENCE_GAP {
      if i < n { assert SeesActive(front, i, k) && front[i] == steps[i]; }
    }
  }

  // ---------------------------------------------------------------------------------------
  // Exactly when an execution that was seen at work is declared abandoned
  // ---------------------------------------------------------------------------------------

  /** The i-th step polled the execution, and from it to the n-th no poll saw activity. */
  ghost predicate QuietFrom(steps: seq<Step>, i: int, n: int, k: Key) {
    && Polls(steps, i, k)
    && forall j {:trigger Polls(steps, j, k)} | i <= j <= n && Polls(steps, j, k) :: !IsActive(steps[j].activity)
  }

  /** After activity was seen, the idle mark is the time of the first poll since the last active one. */
  ghost predicate Marks(w: Watch, steps: seq<Step>, k: Key) {
    && k in w.activeAt
    && (k in w.idleSince ==> exists i :: QuietFrom(steps, i, |steps| - 1, k) && steps[i].now == w.idleSince[k])
    && (forall i {:trigger QuietFrom(steps, i, |steps| - 1, k)} |
          QuietFrom(steps, i, |steps| - 1, k) :: k in w.idleSince && w.idleSince[k] <= steps[i].now)
  }

  lemma QuietFromFront(steps: seq<Step>, i: int, k: Key)
    requires steps != [] && i < |steps| - 1
    ensures QuietFrom(steps, i, |steps| - 1, k) <==>
            QuietFrom(steps[..|steps| - 1], i, |steps| - 2, k) && !SeesActive(steps, |steps| - 1, k)
  {
    var n := |steps| - 1;
    var front := steps[..n];
    forall j | 0 <= j < n ensures Polls(front, j, k) <==> Polls(steps, j, k) {}
    if QuietFrom(steps, i, n, k) {
      forall j | i <= j <= n - 1 && Polls(front, j, k) ensures !IsActive(front[j].activity) {
        assert Polls(steps, j, k);
      }
    }
    if QuietFrom(front, i, n - 1, k) && !SeesActive(steps, n, k) {
      forall j | i <= j <= n && Polls(steps, j, k) ensures !IsActive(steps[j].activity) {
        if j < n { assert Polls(front, j, k); }
      }
    }
  }

  /** A poll that sees activity clears the mark. */
  lemma MarksAfterActive(w: Watch, steps: seq<Step>, k: Key)
    requires k != "" && steps != [] && SeesActive(steps, |steps| - 1, k)
    ensures Marks(Apply(w, steps[|steps| - 1]), steps, k)
  {
    assert Polls(steps, |steps| - 1, k);
  }

  /** Any other step keeps it, or sets it at the first idle poll. */
  lemma MarksAfterIdle(w: Watch, steps: seq<Step>, k: Key, started: int)
    requires Timely(steps, k, started) && steps != [] && !SeesActive(steps, |steps| - 1, k)
    requires Marks(w, steps[..|steps| - 1], k)
    ensures Marks(Apply(w, steps[|steps| - 1]), steps, k)
  {
    var n := |steps| - 1;
    var front, w' := steps[..n], Apply(w, steps[n]);
    assert steps[n] in steps;
    forall i | i < n ensures QuietFrom(steps, i, n, k) <==> QuietFrom(front, i, n - 1, k) {
      QuietFromFront(steps, i, k);
    }
    if k in w.idleSince {
      var i :| QuietFrom(front, i, n - 1, k) && front[i].now == w.idleSince[k];
      assert QuietFrom(steps, i, n, k);
      if Polls(steps, n, k) { assert Polls(steps, i, k); }
    } else if Polls(steps, n, k) {
      assert QuietFrom(steps, n, n, k);
    }
    forall i | QuietFrom(steps, i, n, k) ensures k in w'.idleSince && w'.idleSince[k] <= steps[i].now {
      if i < n { assert QuietFrom(front, i, n - 1, k); }
    }
  }

  lemma MarksNext(w: Watch, steps: seq<Step>, k: Key, started: int)
    requires Timely(steps, k, started) && steps != []
    requires Marks(w, steps[..|steps| - 1], k) || SeesActive(steps, |steps| - 1, k)
    ensures Marks(Apply(w, steps[|steps| - 1]), steps, k)
  {
    if SeesActive(steps, |steps| - 1, k) {
      MarksAfterActive(w, steps, k);
    } else {
      MarksAfterIdle(w, steps, k, started);
    }
  }

  lemma {:induction false} MonitorMarks(steps: seq<Step>, k: Key, started: int, a: int)
    requires Timely(steps, k, started) && SeesActive(steps, a, k)
    ensures Marks(After(steps), steps, k)
  {
    var n := |steps| - 1;
    TimelyPrefix(steps, k, started);
    if a < n {
      assert SeesActive(steps[..n], a, k);
      MonitorMarks(steps[..n], k, started, a);
    }
    MarksNext(After(steps[..n]), steps, k, started);
  }

  /** Once an execution was seen active, a poll declares it abandoned exactly when the execution was polled at
      least 90 seconds before and every poll since, this one included, found it idle. */
  lemma AbandonedIffQuiet(steps: seq<Step>, k: Key, started: int, n: nat, a: int)
    requires n < |steps| && steps[n].PollStep? && steps[n].key == k && Timely(steps[..n + 1], k, started)
    requires a < n && SeesActive(steps, a, k)
    ensures Abandons(steps, n) <==>
            exists i :: i < n && QuietFrom(steps, i, n, k) && steps[i].now + 90 <= steps[n].now
  {
    var upTo, front := steps[..n + 1], steps[..n];
    assert upTo[..n] == front && upTo[n] == steps[n];
    TimelyPrefix(upTo, k, started);
    assert SeesActive(front, a, k);
    MonitorMarks(front, k, started, a);
    var w := After(front);
    forall i | i < n
      ensures QuietFrom(steps, i, n, k) <==> QuietFrom(front, i, n - 1, k) && !SeesActive(steps, n, k)
    {
      QuietFromFront(upTo, i, k);
      SamePolls(steps, n, i, k);
    }
    if Abandons(steps, n) {
      var i :| QuietFrom(front, i, n - 1, k) && front[i].now == w.idleSince[k];
      assert QuietFrom(steps, i, n, k);
    }
    if i :| i < n && QuietFrom(steps, i, n, k) && steps[i].now + QUIESCENCE_GAP <= steps[n].now {
      assert Polls(steps, n, k);
      assert QuietFrom(front, i, n - 1, k);
    }
  }

  lemma SamePolls(steps: seq<Step>, n: nat, i: int, k: Key)
    requires n < |steps| && i <= n
    ensures QuietFrom(steps[..n + 1], i, n, k) <==> QuietFrom(steps, i, n, k)
  {
    var upTo := steps[..n + 1];
    forall j | j <= n ensures Polls(upTo, j, k) <==> Polls(steps, j, k) {}
    if QuietFrom(upTo, i, n, k) {
      forall j | i <= j <= n && Polls(steps, j, k) ensures !IsActive(steps[j].activity) { assert Polls(upTo, j, k); }
    }
    if QuietFrom(steps, i, n, k) {
      forall j | i <= j <= n && Polls(upTo, j, k) ensures !IsActive(upTo[j].activity) { assert Polls(steps, j, k); }
    }
  }

  // ---------------------------------------------------------------------------------------
  // Exactly when one that was never seen active is
  // ---------------------------------------------------------------------------------------

  /** The i-th step polled the execution and found that the carrier had worked since its start. */
  predicate Knows(steps: seq<Step>, i: int, k: Key, started: int) {
    Polls(steps, i, k) && Observed(steps[i].activity, started)
  }

  ghost predicate NoneKnows(steps: seq<Step>, n: int, k: Key, started: int) {
    forall i {:trigger Knows(steps, i, k, started)} | i < n :: !Knows(steps, i, k, started)
  }

  lemma {:induction false} NothingRemembered(steps: seq<Step>, k: Key, started: int)
    requires Timely(steps, k, started) && NoneKnows(steps, |steps|, k, started)
    ensures k !in After(steps).activeAt && k !in After(steps).idleSince
  {
    if steps != [] {
      var n := |steps| - 1;
      var front := steps[..n];
      TimelyPrefix(steps, k, started);
      forall i | i < n ensures !Knows(front, i, k, started) { assert !Knows(steps, i, k, started); }
      NothingRemembered(front, k, started);
      assert steps[n] in steps && !Knows(steps, n, k, started);
      assert Polls(steps, n, k) ==> steps[n].started == started;
    }
  }

  /** As long as no earlier poll knew of any work, a poll judges an idle carrier by what it says now. One that finished
      something since the start is given 90 seconds from then. One that ran something since and has not finished is not
      declared abandoned by this poll. One that did neither is, 180 seconds after the start, as long as it says that it
      is idle and remembers no finish at all: a finish from before the start is no end of this execution. */
  lemma AbandonedIffCold(steps: seq<Step>, k: Key, started: int, n: nat)
    requires n < |steps| && steps[n].PollStep? && steps[n].key == k && Timely(steps[..n + 1], k, started)
    requires NoneKnows(steps, n, k, started)
    ensures var a, now := steps[n].activity, steps[n].now;
            Abandons(steps, n) <==>
              && a.status != "running" && a.running <= 0
              && (if a.lastFinish.At? && a.lastFinish.time >= started then a.lastFinish.time + 90 <= now
                  else if a.lastRun.At? && a.lastRun.time >= started then false
                  else a.lastFinish.Unknown? && a.status == "idle" && a.running == 0 && started + 180 <= now)
  {
    var upTo, front := steps[..n + 1], steps[..n];
    assert upTo[..n] == front && upTo[n] == steps[n] && Polls(upTo, n, k);
    TimelyPrefix(upTo, k, started);
    forall i | i < n ensures !Knows(front, i, k, started) { assert !Knows(steps, i, k, started); }
    NothingRemembered(front, k, started);
  }

  /** The carrier is idle and all it remembers is from before the start. */
  predicate OnlyRemembersOlder(a: Activity, started: int) {
    && a.status != "running" && a.running <= 0 && a.lastFinish.At? && a.lastFinish.time < started
    && (a.lastRun.At? ==> a.lastRun.time < started)
  }

  /** So as long as the carrier remembers a finish from before the start and knows of no work since, an execution is
      never declared abandoned, however long it is polled. */
  lemma OldFinishKeepsWaiting(steps: seq<Step>, k: Key, started: int, n: nat)
    requires n < |steps| && steps[n].PollStep? && steps[n].key == k && Timely(steps[..n + 1], k, started)
    requires forall i | i <= n && Polls(steps, i, k) :: OnlyRemembersOlder(steps[i].activity, started)
    ensures !Abandons(steps, n)
  {
    forall i | i < n ensures !Knows(steps, i, k, started) {
      if Polls(steps, i, k) { assert OnlyRemembersOlder(steps[i].activity, started); }
    }
    assert Polls(steps, n, k);
    AbandonedIffCold(steps, k, started, n);
  }

  /** The m-th poll is the first to know of work, and from it on no poll sees activity. */
  ghost predicate FirstKnownIdle(steps: seq<Step>, m: int, k: Key, started: int) {
    && Knows(steps, m, k, started) && NoneKnows(steps, m, k, started)
    && forall i {:trigger SeesActive(steps, i, k)} | m <= i :: !SeesActive(steps, i, k)
  }

  lemma FirstKnownFront(steps: seq<Step>, m: nat, k: Key, started: int)
    requires m < |steps| - 1 && FirstKnownIdle(steps, m, k, started)
    ensures FirstKnownIdle(steps[..|steps| - 1], m, k, started)
  {
    var front := steps[..|steps| - 1];
    forall i | i < m ensures !Knows(front, i, k, started) { assert !Knows(steps, i, k, started); }
    forall i | m <= i ensures !SeesActive(front, i, k) { assert !SeesActive(steps, i, k); }
    assert Polls(front, m, k);
  }

  lemma {:induction false} FirstMarkStays(steps: seq<Step>, m: nat, k: Key, started: int)
    requires Timely(steps, k, started) && FirstKnownIdle(steps, m, k, started)
    ensures k in After(steps).activeAt && k in After(steps).idleSince
    ensures After(steps).idleSince[k] == FirstIdle(steps[m].activity, started, steps[m].now)
  {
    var n := |steps| - 1;
    var front := steps[..n];
    TimelyPrefix(steps, k, started);
    assert steps[n] in steps && !SeesActive(steps, n, k);
    if m == n {
      forall i | i < n ensures !Knows(front, i, k, started) { assert !Knows(steps, i, k, started); }
      NothingRemembered(front, k, started);
      assert Polls(steps, n, k);
    } else {
      FirstKnownFront(steps, m, k, started);
      FirstMarkStays(front, m, k, started);
    }
  }

  /** An execution known only from the carrier's memory is declared abandoned exactly when 90 seconds have passed
      since the first poll to know of it, or since the finish that poll was told of. */
  lemma AbandonedIffIdleSinceKnown(steps: seq<Step>, k: Key, started: int, m: nat, n: nat)
    requires m < n < |steps| && steps[n].PollStep? && steps[n].key == k && Timely(steps[..n + 1], k, started)
    requires FirstKnownIdle(steps[..n + 1], m, k, started)
    ensures Abandons(steps, n) <==>
            var finish := steps[m].activity.lastFinish;
            (if finish.At? && finish.time >= started then finish.time else steps[m].now) + 90 <= steps[n].now
  {
    var upTo, front := steps[..n + 1], steps[..n];
    assert upTo[..n] == front && upTo[n] == steps[n] && upTo[m] == steps[m];
    assert Polls(upTo, n, k) && !SeesActive(upTo, n, k);
    TimelyPrefix(upTo, k, started);
    FirstKnownFront(upTo, m, k, started);
    FirstMarkStays(front, m, k, started);
  }
}
