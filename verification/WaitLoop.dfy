/**
 * The waiter: starts or joins the daemon of one execution, then polls until the attempt it
 * asked for has settled (_agent_supervisor.py, `attach` and the `run --wait` loop). Every
 * answer of the outside is scripted; generations on disk only ever rise.
 */
module WaitLoop {
  import opened Common
  import opened ExecutionRecords
  import opened Recovery

  const ADMISSION_GRACE := 90

  // ---- reports ------------------------------------------------------------------------------

  datatype State =
    | Registered | WaitingForAdmission | Detached | LockUncertain | CleanupUncertain
    | Completed | ResultRejected | Ended | RecoveryInvalidated | AdmissionFailed

  datatype Why = NoReason | WorktreeContended | ExecutionContended | LaunchPending

  datatype Report = Report(state: State, generation: nat, why: Why, mayComplete: bool)

  function Waiting(generation: nat, why: Why): Report {
    Report(WaitingForAdmission, generation, why, false)
  }

  /** Completion is only ever allowed by a completed attempt. */
  predicate Honest(r: Report) {
    r.mayComplete ==> r.state == Completed
  }

  /** A plain status read: it never speaks for the waiter itself. */
  predicate FromStatus(r: Report) {
    r.state !in {WaitingForAdmission, RecoveryInvalidated, AdmissionFailed} && r.why == NoReason && Honest(r)
  }

  /** The report does not settle an attempt older than the expected one. */
  predicate Tracks(expected: Option<nat>, r: Report) {
    expected.Some? ==>
      || r.state in {WaitingForAdmission, RecoveryInvalidated, AdmissionFailed}
      || r.generation >= expected.value
  }

  // ---- starting or joining a daemon ------------------------------------------------------------

  datatype Locks = WorktreeHeld | ExecutionHeld | Broken | Held

  /**
   * What one call of attach meets, in the order it looks: `record` is read under the locks, or after
   * they were refused.
   */
  datatype Encounter = Encounter(
    first: Record, locks: Locks,
    record: Record, intent: Option<Intent>, evidence: Evidence,
    prepared: bool, spawned: bool,
    now: Report)

  datatype Attached = Attached(report: Option<Report>, expected: Option<nat>, intent: Option<Intent>)

  predicate EncounterPossible(w: Encounter) {
    && |w.first.attempts| <= |w.record.attempts| <= w.now.generation
    && FromStatus(w.now)
    && ValidRecord(w.first) && ValidRecord(w.record)
  }

  /** A retry after the attempts seen under the locks, for an event whose approval fits the work seen there. */
  ghost predicate AsksForRetry(requested: Option<EventId>, w: Encounter, expected: nat) {
    && w.locks == Held && w.spawned && expected == |w.record.attempts| + 1
    && exists event :: (requested == Some(event)
                        || (requested.None? && PendingAutoRecovery(w.record, w.intent, MAX_GENERATIONS) == Some(event)))
                       && Validate(w.record, w.intent, event, w.evidence).Valid?
  }

  /** Returns a report, or None where the call raises; `expected` is the generation a retry asks for. */
  method Attach(requested: Option<EventId>, w: Encounter) returns (a: Attached)
    requires EncounterPossible(w)
    // A retry is only ever awaited on behalf of an event that is approved for the attempt before it,
    // and whose preview equals the work seen now.
    ensures a.expected.Some? ==>
      (&& AsksForRetry(requested, w, a.expected.value)
       && a.report.Some?
       && Tracks(a.expected, a.report.value)
       && (a.report.value.state == WaitingForAdmission ==> a.report.value.why == LaunchPending)
       && a.report.value.state !in {RecoveryInvalidated, AdmissionFailed})
    // A live or lost daemon is joined; contention is reported as waiting, never as the outcome of an older attempt.
    ensures JoinsAtOnce(requested, w) ==> a.report == Some(w.now) && a.expected.None?
    ensures w.locks == WorktreeHeld && !JoinsAtOnce(requested, w) ==>
      a.report == Some(Waiting(|w.record.attempts|, WorktreeContended)) && a.expected.None?
    ensures w.locks == ExecutionHeld && !JoinsAtOnce(requested, w) ==>
      && a.expected.None?
      && a.report == if w.record.attempts != [] then Some(Waiting(|w.record.attempts|, ExecutionContended)) else None
    // Only an approval that no longer fits the work is invalidated, and then for good.
    ensures a.report.Some? && a.report.value.state == RecoveryInvalidated ==>
      exists event ::
        Validate(w.record, w.intent, event, w.evidence).StateChanged? && a.intent == Invalidate(w.intent, event)
    ensures a.intent == w.intent || (a.report.Some? && a.report.value.state == RecoveryInvalidated)
    ensures a.report.Some? ==> a.report.value.generation <= w.now.generation
    ensures a.report.Some? ==> a.report.value.state != AdmissionFailed && Honest(a.report.value)
  {
    if JoinsAtOnce(requested, w) {
      return Attached(Some(w.now), None, w.intent);
    }
    match w.locks {
      case WorktreeHeld =>
        return Attached(Some(Waiting(|w.record.attempts|, WorktreeContended)), None, w.intent);
      case ExecutionHeld =>
        if w.record.attempts != [] {
          return Attached(Some(Waiting(|w.record.attempts|, ExecutionContended)), None, w.intent);
        }
        return Attached(None, None, w.intent);
      case Broken =>
        return Attached(None, None, w.intent);
      case Held =>
    }
    var event := requested;
    if w.record.attempts != [] && requested.None? {
      event := PendingAutoRecovery(w.record, w.intent, MAX_GENERATIONS);
      if event.None? {
        return Attached(Some(w.now), None, w.intent);
      }
    }
    if event.Some? {
      match Validate(w.record, w.intent, event.value, w.evidence) {
        case StateChanged =>
          var report := Report(RecoveryInvalidated, |w.record.attempts|, NoReason, false);
          return Attached(Some(report), None, Invalidate(w.intent, event.value));
        case Valid(_) =>
        case _ =>
          if Carried(w.record, event.value) {
            return Attached(Some(w.now), None, w.intent);
          }
          return Attached(None, None, w.intent);
      }
    }
    if !w.prepared {
      return Attached(None, None, w.intent);
    }
    if !w.spawned {
      if w.now.generation > |w.record.attempts| {
        return Attached(Some(w.now), None, w.intent);
      }
      return Attached(None, None, w.intent);
    }
    var expected := if event.Some? then Some(|w.record.attempts| + 1) else None;
    if w.now.state == Registered || (event.Some? && w.now.generation == |w.record.attempts|) {
      return Attached(Some(Waiting(w.now.generation, LaunchPending)), expected, w.intent);
    }
    a := Attached(Some(w.now), expected, w.intent);
  }

  /** A live or lost daemon is simply joined. */
  predicate JoinsAtOnce(requested: Option<EventId>, w: Encounter) {
    requested.None? && w.first.attempts != [] && !Terminal(Last(w.first).status)
  }

  // ---- polling ---------------------------------------------------------------------------------

  datatype Seen = NoAttempt | Seen(generation: nat, deadline: Option<int>, sameHost: bool)

  datatype Look = Contended | Locked(attempts: nat, intent: Option<Intent>, readable: bool)

  /** One turn of the loop: clock readings and everything that may be read during it. */
  datatype Turn = Turn(guard: int, check: int, spawn: int, grace: int,
                       seen: Seen, again: Encounter, observed: Report, look: Look)

  /** The approval the retry was started for is still open. */
  predicate StillOpen(look: Look, expected: nat)
    requires look.Locked?
  {
    && look.readable && look.intent.Some?
    && look.intent.value.status == Approved
    && look.intent.value.preview.generation == expected - 1
  }

  predicate Unsettled(state: State) {
    state in {Detached, Registered, LockUncertain, WaitingForAdmission}
  }

  /** The number of attempts on disk rises from `floor` to `ceiling` while the turn reads. */
  predicate TurnPossible(turn: Turn, floor: nat, ceiling: nat) {
    && FromStatus(turn.observed) && floor <= turn.observed.generation <= ceiling
    && EncounterPossible(turn.again) && floor <= |turn.again.first.attempts| && turn.again.now.generation <= ceiling
    && (turn.look.Locked? ==> turn.observed.generation <= turn.look.attempts <= ceiling)
  }

  ghost predicate ScriptPossible(script: seq<Turn>, floors: seq<nat>) {
    && |floors| == |script| + 1
    && forall i, j :: 0 <= i < |script| && j == i + 1 ==>
      floors[i] <= floors[j] && TurnPossible(script[i], floors[i], floors[j])
  }

  /** How the loop came to report an invalidated recovery. */
  ghost predicate FoundClosed(turn: Turn, expected: nat) {
    && turn.look.Locked?
    && turn.look.attempts < expected
    && !StillOpen(turn.look, expected)
  }

  ghost predicate FoundChanged(turn: Turn) {
    exists event :: Validate(turn.again.record, turn.again.intent, event, turn.again.evidence).StateChanged?
  }

  /** The daemon of a still open approval did not admit within the grace period. */
  ghost predicate FoundStalled(turn: Turn, expected: nat, spawnedAt: int) {
    && turn.look.Locked? && turn.look.attempts < expected && StillOpen(turn.look, expected)
    && turn.grace - spawnedAt >= ADMISSION_GRACE
  }

  predicate NonIncreasing(s: seq<int>) {
    forall i, j :: 0 <= i < j < |s| ==> s[j] <= s[i]
  }

  datatype Step = Again | Leave | Raise

  datatype Loop = Loop(report: Report, expected: Option<nat>, stop: int, spawnedAt: int)

  /** What the loop knows of its own report at a moment when `floor` attempts are on disk. */
  ghost predicate Sound(s: Loop, floor: nat) {
    && Tracks(s.expected, s.report) && Honest(s.report)
    && s.report.generation <= floor
    && (s.expected.Some? && s.report.state == WaitingForAdmission ==> s.report.why == LaunchPending)
  }

  /** One turn after the sleep: attach again, or read the status and decide what it settles. */
  method Poll(s: Loop, requested: Option<EventId>, turn: Turn, ghost floor: nat, ghost ceiling: nat)
    returns (n: Loop, step: Step)
    requires Sound(s, floor) && floor <= ceiling && TurnPossible(turn, floor, ceiling) && Unsettled(s.report.state)
    ensures step != Raise ==> Sound(n, ceiling)
    ensures n.stop == s.stop
    ensures n.expected != s.expected ==> s.expected.None? && AsksForRetry(requested, turn.again, n.expected.value)
    ensures step == Leave ==> n.report.state in {RecoveryInvalidated, AdmissionFailed} && n.expected.Some?
    ensures n.report.state == RecoveryInvalidated ==>
      (n.expected.Some? && FoundClosed(turn, n.expected.value)) || FoundChanged(turn)
    ensures n.report.state == AdmissionFailed ==> n.expected.Some? && FoundStalled(turn, n.expected.value, n.spawnedAt)
  {
    n, step := s, Again;
    if s.report.state == WaitingForAdmission && s.report.why in {WorktreeContended, ExecutionContended} {
      var a := Attach(requested, turn.again);
      if a.report.None? {
        return s, Raise;
      }
      n := s.(report := a.report.value);
      if a.expected.Some? {
        n := n.(expected := a.expected, spawnedAt := turn.spawn);
      }
      return;
    }
    var observed := turn.observed;
    if s.expected.Some? && observed.generation < s.expected.value
       && s.report.state in {Detached, WaitingForAdmission} {
      if turn.look.Contended? || turn.look.attempts >= s.expected.value {
        return;
      }
      if !StillOpen(turn.look, s.expected.value) {
        return s.(report := Report(RecoveryInvalidated, turn.look.attempts, NoReason, false)), Leave;
      }
      if turn.grace - s.spawnedAt >= ADMISSION_GRACE {
        return s.(report := Report(AdmissionFailed, turn.look.attempts, NoReason, false)), Leave;
      }
      return;
    }
    if observed.state == Registered && s.report.state == WaitingForAdmission {
      return;
    }
    n := s.(report := observed);
  }

  /** The stop time, drawn in by the deadline of the attempt that is waited for. */
  function DrawnIn(s: Loop, seen: Seen, tail: int): (stop: int)
    ensures stop <= s.stop
    ensures stop != s.stop ==> seen.Seen? && (s.expected.Some? ==> seen.generation >= s.expected.value)
  {
    if seen.Seen? && (s.expected.None? || seen.generation >= s.expected.value) && seen.deadline.Some? && seen.sameHost
       && seen.deadline.value + tail < s.stop
    then seen.deadline.value + tail
    else s.stop
  }

  function ExitsWell(r: Report): bool {
    r.mayComplete || r.state in {Detached, WaitingForAdmission}
  }

  /**
   * What the loop held after each turn: once a retry is expected it stays so, and no report settles an
   * older attempt.
   */
  ghost predicate NeverSettlesOlder(expectations: seq<Option<nat>>, reports: seq<Report>) {
    && |expectations| == |reports|
    && (forall i :: 0 <= i < |reports| ==> Tracks(expectations[i], reports[i]))
    && (forall i, j :: 0 <= i < j < |expectations| && expectations[i].Some? ==> expectations[j] == expectations[i])
  }

  lemma DrawnInStaysLow(stops: seq<int>, stop: int)
    requires stops != [] && NonIncreasing(stops) && stop <= stops[|stops| - 1]
    ensures NonIncreasing(stops + [stop])
  {
    var n := |stops| - 1;
    forall i | 0 <= i <= n ensures stop <= stops[i] {
      assert i < n ==> stops[n] <= stops[i];
    }
  }

  lemma SettlesOnward(expectations: seq<Option<nat>>, reports: seq<Report>, next: Loop)
    requires NeverSettlesOlder(expectations, reports) && expectations != [] && Tracks(next.expected, next.report)
    requires expectations[|expectations| - 1].Some? ==> next.expected == expectations[|expectations| - 1]
    ensures NeverSettlesOlder(expectations + [next.expected], reports + [next.report])
  {
    var n := |expectations| - 1;
    forall i | 0 <= i <= n && expectations[i].Some? ensures next.expected == expectations[i] {
      assert i < n ==> expectations[n] == expectations[i];
    }
  }

  method RunWait(wait: bool, requested: Option<EventId>, started: int, timeout: nat, tail: nat,
                 first: Report, firstExpected: Option<nat>, spawnedAt: int, script: seq<Turn>, ghost floors: seq<nat>)
    returns (last: Loop, raised: bool, expectations: seq<Option<nat>>, reports: seq<Report>, stops: seq<int>,
             ghost at: nat)
    requires ScriptPossible(script, floors)
    requires Sound(Loop(first, firstExpected, 0, spawnedAt), floors[0])
    ensures at <= |script|
    ensures !raised ==> Sound(last, floors[at])
    // The waiter exits well only for the retry it expects, or while that retry is still awaited.
    ensures !raised && last.expected.Some? && ExitsWell(last.report) ==>
      last.report.state == WaitingForAdmission || last.report.generation >= last.expected.value
    ensures NeverSettlesOlder(expectations, reports)
    ensures reports != [] && reports[0] == first && expectations[0] == firstExpected
    ensures !raised ==> reports[|reports| - 1] == last.report && expectations[|reports| - 1] == last.expected
    // A retry is expected from the start, or since a turn that attached for an approved event.
    ensures last.expected == firstExpected
      || (&& firstExpected.None?
          && exists i :: 0 <= i < at && AsksForRetry(requested, script[i].again, last.expected.value))
    // The stop time never increases.
    ensures stops != [] && NonIncreasing(stops) && stops[0] == started + (if wait then timeout + tail else 5)
    ensures stops[|stops| - 1] == last.stop
    // An invalidated or stalled recovery is only reported for a reason seen under the execution lock.
    ensures !raised && last.report.state == RecoveryInvalidated && first.state != RecoveryInvalidated ==>
      exists i :: 0 <= i < at &&
        (FoundChanged(script[i]) || (last.expected.Some? && FoundClosed(script[i], last.expected.value)))
    ensures !raised && last.report.state == AdmissionFailed && first.state != AdmissionFailed ==>
      exists i, since :: 0 <= i < at && last.expected.Some? && FoundStalled(script[i], last.expected.value, since)
    // The loop is left early only with a settled report or at the stop time.
    ensures !raised && at < |script| && Unsettled(last.report.state) ==>
      script[at].guard >= last.stop || (wait && script[at].check >= last.stop)
  {
    var s := Loop(first, firstExpected, started + (if wait then timeout + tail else 5), spawnedAt);
    expectations, reports, stops, at := [firstExpected], [first], [s.stop], 0;
    var i := 0;
    while i < |script| && Unsettled(s.report.state) && script[i].guard < s.stop
      invariant 0 <= i <= |script| && at == i
      invariant Sound(s, floors[i])
      invariant NeverSettlesOlder(expectations, reports)
      invariant reports != [] && reports[0] == first && reports[|reports| - 1] == s.report
      invariant expectations[0] == firstExpected && expectations[|expectations| - 1] == s.expected
      invariant s.expected == firstExpected
        || (firstExpected.None? && exists k :: 0 <= k < i && AsksForRetry(requested, script[k].again, s.expected.value))
      invariant stops != [] && NonIncreasing(stops) && stops[|stops| - 1] == s.stop
      invariant stops[0] == started + (if wait then timeout + tail else 5)
      invariant s.report.state == RecoveryInvalidated && first.state != RecoveryInvalidated ==>
        exists k :: 0 <= k < i &&
          (FoundChanged(script[k]) || (s.expected.Some? && FoundClosed(script[k], s.expected.value)))
      invariant s.report.state == AdmissionFailed && first.state != AdmissionFailed ==>
        exists k, since :: 0 <= k < i && s.expected.Some? && FoundStalled(script[k], s.expected.value, since)
    {
      var turn := script[i];
      if wait {
        s := s.(stop := DrawnIn(s, turn.seen, tail));
        DrawnInStaysLow(stops, s.stop);
        stops := stops + [s.stop];
        if turn.check >= s.stop {
          return s, false, expectations, reports, stops, at;
        }
      }
      var next, step := Poll(s, requested, turn, floors[i], floors[i + 1]);
      if step == Raise {
        return s, true, expectations, reports, stops, at;
      }
      SettlesOnward(expectations, reports, next);
      expectations, reports := expectations + [next.expected], reports + [next.report];
      s, i := next, i + 1;
      at := i;
      if step == Leave {
        break;
      }
    }
    last, raised := s, false;
  }

  /**
   * The whole command: attach, then wait. Whatever happens meanwhile, success is reported only
   * for the retry that was asked for with an open approval, or while it is awaited.
   */
  method AttachAndWait(wait: bool, requested: Option<EventId>, started: int, timeout: nat, tail: nat,
                       w: Encounter, spawnedAt: int, script: seq<Turn>, ghost floors: seq<nat>)
    returns (exitsWell: bool, last: Option<Loop>, expectations: seq<Option<nat>>, reports: seq<Report>, ghost at: nat)
    requires EncounterPossible(w) && ScriptPossible(script, floors) && w.now.generation <= floors[0]
    ensures exitsWell ==> last.Some? && ExitsWell(last.value.report)
    ensures exitsWell && last.value.expected.Some? ==>
      last.value.report.state == WaitingForAdmission || last.value.report.generation >= last.value.expected.value
    ensures NeverSettlesOlder(expectations, reports)
    ensures last.Some? ==>
      reports != [] && reports[|reports| - 1] == last.value.report && expectations[|reports| - 1] == last.value.expected
    ensures at <= |script|
    ensures last.Some? && last.value.expected.Some? ==>
      AsksForRetry(requested, w, last.value.expected.value)
      || exists i :: 0 <= i < at && AsksForRetry(requested, script[i].again, last.value.expected.value)
    // Where nothing raised, a refused worktree lock is waited for, and a joined daemon is waited for as it is.
    ensures last.Some? && JoinsAtOnce(requested, w) ==> reports[0] == w.now && expectations[0].None?
    ensures last.Some? && w.locks == WorktreeHeld && !JoinsAtOnce(requested, w) ==>
      reports[0] == Waiting(|w.record.attempts|, WorktreeContended) && expectations[0].None?
  {
    exitsWell, last, expectations, reports, at := false, None, [], [], 0;
    var a := Attach(requested, w);
    if a.report.None? {
      return;
    }
    var s, raised, stops;
    s, raised, expectations, reports, stops, at :=
      RunWait(wait, requested, started, timeout, tail, a.report.value, a.expected, spawnedAt, script, floors);
    if raised {
      return;
    }
    exitsWell, last := ExitsWell(s.report), Some(s);
  }

  /** The two guards agree: what attach hands to a daemon is still open for the loop until someone consumes it. */
  lemma AttachedIsStillOpen(record: Record, intent: Option<Intent>, event: EventId, evidence: Evidence)
    requires ValidRecord(record) && Validate(record, intent, event, evidence).Valid?
    ensures StillOpen(Locked(|record.attempts|, intent, true), |record.attempts| + 1)
    ensures !StillOpen(Locked(|record.attempts|, Some(Consume(intent.value)), true), |record.attempts| + 1)
    ensures intent.value.approver == Tick ==>
      !StillOpen(Locked(|record.attempts|, Invalidate(intent, event), true), |record.attempts| + 1)
  {
    assert Last(record).generation == |record.attempts|;
  }
}
