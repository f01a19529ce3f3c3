/**
 * Recovery is exactly once, and tick-driven recovery is bounded, over every run.
 *
 * The log of an execution records each approval, consumption, admission and
 * loss in order; it is append-only, so its entries witness what must have come
 * before an attempt.
 */
module RecoveryRuns {
  import opened Common
  import opened ProcessCleanup
  import opened ExecutionRecords
  import opened Supervision
  import R = Recovery

  // ----- what the log says -----

  ghost predicate ApprovedBefore(log: seq<Entry>, i: nat, preview: R.Preview)
    requires i <= |log|
  {
    exists a :: 0 <= a < i && log[a].WasApproved? && log[a].preview == preview
  }

  ghost predicate EventConsumed(log: seq<Entry>, event: EventId) {
    exists i :: 0 <= i < |log| && log[i].WasConsumed? && log[i].preview.event == event
  }

  /** The work seen at consumption is the work that was approved. */
  predicate SawApprovedWork(preview: R.Preview, seen: R.Evidence) {
    (seen.Readable? || seen.EvidenceLegacy?) && seen.work == preview.work
  }

  ghost predicate ConsumptionsTraced(log: seq<Entry>, events: set<EventId>) {
    && (forall i :: 0 <= i < |log| && log[i].WasConsumed? ==>
          && ApprovedBefore(log, i, log[i].preview)
          && SawApprovedWork(log[i].preview, log[i].seen) && log[i].preview.event in events)
    && (forall i, j :: 0 <= i < j < |log| && log[i].WasConsumed? && log[j].WasConsumed? ==>
          log[i].preview.event != log[j].preview.event)
  }

  /** An admission that carries an event directly follows the consumption of that event. */
  predicate FollowsConsumption(log: seq<Entry>, d: nat)
    requires d < |log| && log[d].WasAdmitted?
  {
    log[d].carried.Some? ==>
      && d > 0
      && log[d - 1].WasConsumed?
      && log[d - 1].preview.event == log[d].carried.value
      && log[d - 1].preview.generation + 1 == log[d].generation
  }

  ghost predicate AdmittedAt(log: seq<Entry>, generation: nat, carried: Option<EventId>) {
    exists d :: 0 <= d < |log| && log[d] == WasAdmitted(generation, carried)
  }

  ghost predicate AdmissionsTraced(log: seq<Entry>, attempts: seq<Attempt>) {
    && (forall d :: 0 <= d < |log| && log[d].WasAdmitted? ==>
          FollowsConsumption(log, d) && log[d].generation <= |attempts|)
    && (forall k :: 0 <= k < |attempts| ==>
          AdmittedAt(log, k + 1, attempts[k].event) && (attempts[k].event.None? <==> k == 0))
    && (forall d, f :: 0 <= d < f < |log| && log[d].WasAdmitted? && log[f].WasAdmitted? ==>
          log[d].generation < log[f].generation)
  }

  ghost predicate IntentTraced(e: Execution) {
    e.intent.Some? ==>
      && e.intent.value.preview.event in e.events
      && (e.intent.value.status == R.Approved ==> ApprovedBefore(e.log, |e.log|, e.intent.value.preview))
      && (e.intent.value.status in {R.Prepared, R.Approved} ==> !EventConsumed(e.log, e.intent.value.preview.event))
  }

  ghost predicate OwnerTraced(e: Execution) {
    match e.owner
    case Consumed(preview) => e.log != [] && e.log[|e.log| - 1].WasConsumed? && e.log[|e.log| - 1].preview == preview
    case Authorized(Some(event)) =>
      && e.record.attempts != []
      && e.log != [] && e.log[|e.log| - 1].WasConsumed?
      && e.log[|e.log| - 1].preview.event == event
      && e.log[|e.log| - 1].preview.generation == Generation(e)
    case Authorized(None) => e.record.attempts == []
    case _ => true
  }

  ghost predicate Traced(e: Execution) {
    && ValidRecord(e.record)
    && ConsumptionsTraced(e.log, e.events)
    && AdmissionsTraced(e.log, e.record.attempts)
    && IntentTraced(e)
    && OwnerTraced(e)
  }

  // ----- steps that have nothing to do with recovery -----

  ghost predicate SameEvents(before: seq<Attempt>, after: seq<Attempt>) {
    |after| == |before| && forall k :: 0 <= k < |before| ==> after[k].event == before[k].event
  }

  ghost predicate Quiet(e: Execution, after: Execution) {
    && after.intent == e.intent && after.events == e.events
    && ValidRecord(after.record)
    && SameEvents(e.record.attempts, after.record.attempts)
    && after.log == e.log
    && !after.owner.Consumed? && !after.owner.Authorized?
  }

  lemma WriteIsQuiet(e: Execution, c: Changes, next: Owner, failed: Owner)
    requires ValidRecord(e.record)
    requires !next.Consumed? && !next.Authorized? && !failed.Consumed? && !failed.Authorized?
    ensures Quiet(e, Write(e, c, next, failed))
  {
    UpdateKeepsHistory(e.record, Generation(e), c);
  }

  predicate IsRecoveryStep(s: ClientStep) {
    s.Begin? || s.Consume? || s.Authorize? || s.AdmitNow?
  }

  lemma ClientIsQuiet(e: Execution, s: ClientStep)
    requires ValidRecord(e.record) && DoClient(e, s).Some? && !IsRecoveryStep(s)
    ensures Quiet(e, DoClient(e, s).value)
  {
    match s {
      case RecordSupervisor(identity) => WriteIsQuiet(e, KEEP.(supervisor := Some(identity)), Registered, Free);
      case RecordLaunch(started, deadline) =>
        WriteIsQuiet(e, LaunchReceipt(e.owner.child, started, deadline), ClientLaunched(e.owner.child), LOST_CLIENT);
      case RecordRoots => WriteIsQuiet(e, KEEP.(direct := Some([e.owner.child])), ClientOwned(e.owner.child),
                                       LOST_CLIENT);
      case ClientExit(expired, code, signal, clean) =>
        WriteIsQuiet(e, ExitReceipt(e, e.owner.child, expired, code, signal, clean),
                     AfterClient(e, expired, code, clean), Free);
      case Finish =>
        WriteIsQuiet(e, KEEP.(status := Some(e.owner.status), reason := e.owner.reason, cleanup := e.owner.cleanup),
                     Free, Free);
      case _ =>
    }
  }

  lemma CollectIsQuiet(e: Execution, s: CollectStep)
    requires ValidRecord(e.record) && DoCollect(e, s).Some?
    ensures Quiet(e, DoCollect(e, s).value)
  {
    var late := e.owner.late;
    var invalid := Abandoned(late, ResultInvalid);
    match s {
      case MarkUncertain => WriteIsQuiet(e, KEEP.(cleanup := Some(Unconfirmed)), Uncertain(late), invalid);
      case RecordRoot => WriteIsQuiet(e, InventoryOf(e, [e.owner.child]), CheckReceipted(late, e.owner.child), invalid);
      case Reinventory => WriteIsQuiet(e, InventoryOf(e, []), CheckOwned(late, e.owner.child), invalid);
      case InventoryExit =>
        WriteIsQuiet(e, InventoryOf(e, []), Inventoried(late, e.owner.child, e.owner.outcome, e.owner.clean), invalid);
      case ConfirmExit =>
        WriteIsQuiet(e, KEEP.(cleanup := Some(Cleanup.Confirmed)), AfterCheck(late, e.owner.outcome, true), invalid);
      case ConfirmRefusal(overdue) => WriteIsQuiet(e, KEEP.(cleanup := Some(Cleanup.Confirmed)),
                                                   AfterRefusal(late, overdue), invalid);
      case _ =>
    }
  }

  lemma SweepIsQuiet(e: Execution, s: SweepStep)
    requires ValidRecord(e.record) && DoSweep(e, s).Some?
    ensures Quiet(e, DoSweep(e, s).value)
  {
    if s.WriteOutcome? {
      WriteIsQuiet(e, SweepOutcome(e, e.owner.settled), Free, Free);
    }
  }

  lemma QuietKeepsTrace(e: Execution, after: Execution)
    requires Traced(e) && Quiet(e, after)
    ensures Traced(after)
  {
  }

  // ----- recovery steps -----

  /** A log entry that is neither a consumption nor an admission leaves every trace in place. */
  lemma AppendPlain(log: seq<Entry>, x: Entry, events: set<EventId>, attempts: seq<Attempt>)
    requires ConsumptionsTraced(log, events) && AdmissionsTraced(log, attempts)
    requires !x.WasConsumed? && !x.WasAdmitted?
    ensures ConsumptionsTraced(log + [x], events) && AdmissionsTraced(log + [x], attempts)
    ensures forall preview :: ApprovedBefore(log, |log|, preview) ==> ApprovedBefore(log + [x], |log| + 1, preview)
    ensures forall event :: EventConsumed(log + [x], event) ==> EventConsumed(log, event)
  {
    var longer := log + [x];
    AppendKeepsApprovals(log, x);
    forall i | 0 <= i < |longer| && longer[i].WasConsumed?
      ensures ApprovedBefore(longer, i, longer[i].preview)
    {
      assert longer[i] == log[i];
    }
    forall event | EventConsumed(longer, event)
      ensures EventConsumed(log, event)
    {
      var i :| 0 <= i < |longer| && longer[i].WasConsumed? && longer[i].preview.event == event;
      assert longer[i] == log[i];
    }
    AppendKeepsAdmissions(log, x, attempts);
  }

  lemma AppendKeepsApprovals(log: seq<Entry>, x: Entry)
    ensures forall i: nat, preview :: i <= |log| && ApprovedBefore(log, i, preview) ==>
      ApprovedBefore(log + [x], i, preview)
    ensures forall preview :: ApprovedBefore(log, |log|, preview) ==> ApprovedBefore(log + [x], |log| + 1, preview)
  {
    forall i: nat, j: nat, preview | i <= |log| && i <= j <= |log| + 1 && ApprovedBefore(log, i, preview)
      ensures ApprovedBefore(log + [x], j, preview)
    {
      var a :| 0 <= a < i && log[a].WasApproved? && log[a].preview == preview;
      assert (log + [x])[a] == log[a];
    }
  }

  lemma AppendKeepsAdmissions(log: seq<Entry>, x: Entry, attempts: seq<Attempt>)
    requires AdmissionsTraced(log, attempts) && !x.WasAdmitted?
    ensures AdmissionsTraced(log + [x], attempts)
  {
    var longer := log + [x];
    forall d | 0 <= d < |longer| && longer[d].WasAdmitted?
      ensures FollowsConsumption(longer, d) && longer[d].generation <= |attempts|
    {
      assert longer[d] == log[d];
    }
    forall k | 0 <= k < |attempts|
      ensures AdmittedAt(longer, k + 1, attempts[k].event)
    {
      assert AdmittedAt(log, k + 1, attempts[k].event);
      var d :| 0 <= d < |log| && log[d] == WasAdmitted(k + 1, attempts[k].event);
      assert longer[d] == log[d];
    }
  }

  lemma ReleaseTraced(e: Execution)
    requires ConsumptionsTraced(e.log, e.events) && AdmissionsTraced(e.log, e.record.attempts)
    requires ValidRecord(e.record) && IntentTraced(e)
    ensures Traced(Release(e))
  {
    AppendPlain(e.log, OwnerLost, e.events, e.record.attempts);
  }

  /** Invalidating an intent only closes it. */
  lemma InvalidationTraced(e: Execution, event: EventId)
    requires Traced(e)
    ensures IntentTraced(e.(intent := R.Invalidate(e.intent, event)))
  {
  }

  /** The consumption itself: a fresh, approved event, used exactly once. */
  lemma AppendConsumption(log: seq<Entry>, preview: R.Preview, seen: R.Evidence, events: set<EventId>,
                          attempts: seq<Attempt>)
    requires ConsumptionsTraced(log, events) && AdmissionsTraced(log, attempts)
    requires ApprovedBefore(log, |log|, preview) && SawApprovedWork(preview, seen) && preview.event in events
    requires !EventConsumed(log, preview.event)
    ensures ConsumptionsTraced(log + [WasConsumed(preview, seen)], events)
    ensures AdmissionsTraced(log + [WasConsumed(preview, seen)], attempts)
  {
    var longer := log + [WasConsumed(preview, seen)];
    AppendKeepsApprovals(log, WasConsumed(preview, seen));
    AppendKeepsAdmissions(log, WasConsumed(preview, seen), attempts);
    forall i | 0 <= i < |longer| && longer[i].WasConsumed?
      ensures ApprovedBefore(longer, i, longer[i].preview) && SawApprovedWork(longer[i].preview, longer[i].seen)
      ensures longer[i].preview.event in events
    {
      if i < |log| { assert longer[i] == log[i]; }
    }
  }

  lemma ConsumeTraced(e: Execution, event: EventId, evidence: R.Evidence)
    requires Traced(e) && e.owner.Loaded?
    ensures Traced(ConsumeEvent(e, event, evidence))
  {
    match R.Validate(e.record, e.intent, event, evidence) {
      case Valid(preview) => AppendConsumption(e.log, preview, evidence, e.events, e.record.attempts);
      case StateChanged =>
        InvalidationTraced(e, event);
        ReleaseTraced(e.(intent := R.Invalidate(e.intent, event)));
      case _ => ReleaseTraced(e);
    }
  }

  lemma AuthorizeTraced(e: Execution)
    requires Traced(e) && e.owner.Consumed?
    ensures Traced(AuthorizeEvent(e, e.owner.preview))
  {
    AuthorizeIsFresh(e.record, e.owner.preview.generation, e.owner.preview.event);
    if AuthorizeRetry(e.record, e.owner.preview.generation, e.owner.preview.event).Failure? {
      ReleaseTraced(e);
    }
  }

  /** Admission right after consumption: the log gains the entry that names the new attempt. */
  lemma AppendAdmission(log: seq<Entry>, attempts: seq<Attempt>, attempt: Attempt, events: set<EventId>)
    requires ConsumptionsTraced(log, events) && AdmissionsTraced(log, attempts)
    requires attempt.event.None? <==> attempts == []
    requires attempt.event.Some? ==>
      && log != [] && log[|log| - 1].WasConsumed?
      && log[|log| - 1].preview.event == attempt.event.value
      && log[|log| - 1].preview.generation == |attempts|
    ensures var longer := log + [WasAdmitted(|attempts| + 1, attempt.event)];
      && ConsumptionsTraced(longer, events) && AdmissionsTraced(longer, attempts + [attempt])
      && (forall preview :: ApprovedBefore(log, |log|, preview) ==> ApprovedBefore(longer, |log| + 1, preview))
      && (forall event :: EventConsumed(longer, event) ==> EventConsumed(log, event))
  {
    var x := WasAdmitted(|attempts| + 1, attempt.event);
    var longer := log + [x];
    var more := attempts + [attempt];
    AppendKeepsApprovals(log, x);
    forall i | 0 <= i < |longer| && longer[i].WasConsumed?
      ensures ApprovedBefore(longer, i, longer[i].preview) && SawApprovedWork(longer[i].preview, longer[i].seen)
      ensures longer[i].preview.event in events
    {
      assert longer[i] == log[i];
    }
    forall event | EventConsumed(longer, event)
      ensures EventConsumed(log, event)
    {
      var i :| 0 <= i < |longer| && longer[i].WasConsumed? && longer[i].preview.event == event;
      assert longer[i] == log[i];
    }
    forall d | 0 <= d < |longer| && longer[d].WasAdmitted?
      ensures FollowsConsumption(longer, d) && longer[d].generation <= |more|
    {
      if d < |log| { assert longer[d] == log[d]; }
    }
    forall k | 0 <= k < |more|
      ensures AdmittedAt(longer, k + 1, more[k].event) && (more[k].event.None? <==> k == 0)
    {
      if k < |attempts| {
        assert AdmittedAt(log, k + 1, attempts[k].event);
        var d :| 0 <= d < |log| && log[d] == WasAdmitted(k + 1, attempts[k].event);
        assert longer[d] == log[d];
      } else {
        assert longer[|log|] == x;
      }
    }
    forall d, f | 0 <= d < f < |longer| && longer[d].WasAdmitted? && longer[f].WasAdmitted?
      ensures longer[d].generation < longer[f].generation
    {
      assert longer[d] == log[d];
      if f < |log| { assert longer[f] == log[f]; }
    }
  }

  lemma AdmitTraced(e: Execution, peers: bool)
    requires Traced(e) && e.owner.Authorized?
    ensures Traced(AdmitAttempt(e, e.owner.event, peers))
  {
    AdmitKeepsHistory(e.record, e.owner.event);
    var outcome := Admit(e.record, e.owner.event);
    if peers && outcome.Success? && outcome.value.1 {
      assert outcome.value.0.attempts == e.record.attempts + [NewAttempt(|e.record.attempts| + 1, e.owner.event)];
      AppendAdmission(e.log, e.record.attempts, NewAttempt(|e.record.attempts| + 1, e.owner.event), e.events);
    } else {
      ReleaseTraced(e);
    }
  }

  lemma ClientTraced(e: Execution, s: ClientStep)
    requires Traced(e) && DoClient(e, s).Some?
    ensures Traced(DoClient(e, s).value)
  {
    if !IsRecoveryStep(s) {
      ClientIsQuiet(e, s);
      QuietKeepsTrace(e, DoClient(e, s).value);
    } else {
      match s {
        case Begin => if e.record.attempts != [] { ReleaseTraced(e); }
        case Consume(evidence) => ConsumeTraced(e, e.owner.request.value, evidence);
        case Authorize => AuthorizeTraced(e);
        case AdmitNow(peers) => AdmitTraced(e, peers);
      }
    }
  }

  // ----- control plane -----

  /** Recording a new approval, by the tick or an operator, of an event no one has used. */
  lemma ApprovalTraced(e: Execution, intent: R.Intent, approver: R.Approver)
    requires Traced(e) && e.owner.Free? && intent.preview.event in e.events
    requires !EventConsumed(e.log, intent.preview.event)
    ensures Traced(e.(intent := Some(intent), log := e.log + [WasApproved(intent.preview, approver)]))
  {
    var x := WasApproved(intent.preview, approver);
    AppendPlain(e.log, x, e.events, e.record.attempts);
    assert (e.log + [x])[|e.log|] == x;
  }

  lemma MoreEventsTraced(e: Execution, event: EventId)
    requires Traced(e) && e.owner.Free? && event !in e.events
    ensures Traced(e.(events := e.events + {event})) && !EventConsumed(e.log, event)
  {
    FreshIsUnconsumed(e.log, e.events, event);
    GrowEvents(e.log, e.events, event);
  }

  lemma ClosedTraced(e: Execution)
    requires Traced(e) && e.owner.Free? && e.intent.Some?
    ensures Traced(e.(intent := Some(e.intent.value.(status := R.Invalidated))))
  {
  }

  lemma TickTraced(e: Execution, peers: bool, evidence: R.Evidence, event: EventId)
    requires Traced(e) && e.owner.Free? && event !in e.events
    ensures Traced(DoControl(e, TickApprove(peers, evidence, event)).value)
  {
    R.PolicyEffect(e.record, e.intent, peers, evidence, event, R.MAX_GENERATIONS);
    var (verdict, intent) := R.AutoApprove(e.record, e.intent, peers, evidence, event, R.MAX_GENERATIONS);
    var wider := e.(events := e.events + {event});
    MoreEventsTraced(e, event);
    if verdict.reason == R.JustApproved {
      ApprovalTraced(wider, intent.value, R.Tick);
    } else if intent != e.intent {
      ClosedTraced(wider);
    }
  }

  lemma FreshIsUnconsumed(log: seq<Entry>, events: set<EventId>, event: EventId)
    requires ConsumptionsTraced(log, events) && event !in events
    ensures !EventConsumed(log, event)
  {
  }

  lemma GrowEvents(log: seq<Entry>, events: set<EventId>, event: EventId)
    requires ConsumptionsTraced(log, events)
    ensures ConsumptionsTraced(log, events + {event})
  {
  }

  lemma ControlTraced(e: Execution, s: ControlStep)
    requires Traced(e) && e.owner.Free? && DoControl(e, s).Some?
    ensures Traced(DoControl(e, s).value)
  {
    match s {
      case TickApprove(peers, evidence, event) => TickTraced(e, peers, evidence, event);
      case WaiterValidate(event, evidence) => InvalidationTraced(e, event);
      case OperatorPrepare(mode, evidence, event) => MoreEventsTraced(e, event);
      case OperatorApprove(preview, evidence) =>
        ApprovalTraced(e, R.Approve(e.record, e.intent, preview, evidence).value, R.Operator);
    }
  }

  lemma StepTraced(e: Execution, s: Step)
    requires Traced(e) && Local(e, s).Some?
    ensures Traced(Local(e, s).value)
  {
    match s {
      case Client(client) => ClientTraced(e, client);
      case Collect(collect) =>
        CollectIsQuiet(e, collect);
        QuietKeepsTrace(e, Local(e, s).value);
      case Sweep(sweep) =>
        SweepIsQuiet(e, sweep);
        QuietKeepsTrace(e, Local(e, s).value);
      case Control(control) => ControlTraced(e, control);
      case Crash => ReleaseTraced(e);
      case _ =>
    }
  }

  lemma {:induction false} RunTraced(s: Root, events: seq<Event>)
    requires (forall id :: id in s ==> Traced(s[id])) && Run(s, events).Some?
    ensures forall id :: id in Run(s, events).value ==> Traced(Run(s, events).value[id])
    decreases |events|
  {
    if events != [] {
      var next := Next(s, events[0]).value;
      match events[0] {
        case Register(id, worktree, manifest) => assert Traced(Fresh(worktree, manifest));
        case Act(id, step) => StepTraced(s[id], step);
      }
      RunTraced(next, events[1..]);
    }
  }

  // ----- exactly once -----

  /**
   * Every attempt after the first carries an event that was approved, then
   * consumed while the work equalled the approved preview, for the generation
   * just before it; and no owner was lost between consumption and admission.
   */
  lemma RetryWasApprovedThenConsumed(s: Root, events: seq<Event>, id: ExecutionId, k: nat) returns (a: nat, c: nat)
    requires Reachable(s, events) && id in s && 1 <= k < Generation(s[id])
    ensures a < c && c + 1 < |s[id].log|
    ensures s[id].record.attempts[k].event.Some?
    ensures s[id].log[c].WasConsumed? && s[id].log[c].preview.event == s[id].record.attempts[k].event.value
    ensures s[id].log[c].preview.generation == k && SawApprovedWork(s[id].log[c].preview, s[id].log[c].seen)
    ensures s[id].log[a].WasApproved? && s[id].log[a].preview == s[id].log[c].preview
    ensures s[id].log[c + 1] == WasAdmitted(k + 1, s[id].record.attempts[k].event)
  {
    RunTraced(map[], events);
    var log := s[id].log;
    assert Traced(s[id]);
    assert AdmittedAt(log, k + 1, s[id].record.attempts[k].event);
    var d :| 0 <= d < |log| && log[d] == WasAdmitted(k + 1, s[id].record.attempts[k].event);
    assert FollowsConsumption(log, d);
    c := d - 1;
    assert ApprovedBefore(log, c, log[c].preview);
    a :| 0 <= a < c && log[a].WasApproved? && log[a].preview == log[c].preview;
  }

  /** No event is carried by two attempts. */
  lemma EventsAreSingleUse(s: Root, events: seq<Event>, id: ExecutionId, i: nat, j: nat)
    requires Reachable(s, events) && id in s && i < j < Generation(s[id])
    ensures s[id].record.attempts[i].event.Some? ==> s[id].record.attempts[i].event != s[id].record.attempts[j].event
  {
    RunTraced(map[], events);
    assert Traced(s[id]);
    if i > 0 {
      var a, c := RetryWasApprovedThenConsumed(s, events, id, i);
      var b, d := RetryWasApprovedThenConsumed(s, events, id, j);
      assert s[id].log[c].preview.generation != s[id].log[d].preview.generation;
    }
  }

  lemma LogGrows(e: Execution, s: Step)
    requires ValidRecord(e.record) && Local(e, s).Some?
    ensures e.log <= Local(e, s).value.log
  {
    match s {
      case Client(client) => if !IsRecoveryStep(client) { ClientIsQuiet(e, client); }
      case Collect(collect) => CollectIsQuiet(e, collect);
      case Sweep(sweep) => SweepIsQuiet(e, sweep);
      case _ =>
    }
  }

  lemma {:induction false} RunKeepsLog(s: Root, events: seq<Event>, id: ExecutionId)
    requires (forall other :: other in s ==> Traced(s[other])) && Run(s, events).Some? && id in s
    ensures id in Run(s, events).value && s[id].log <= Run(s, events).value[id].log
    decreases |events|
  {
    if events != [] {
      match events[0] {
        case Register(other, worktree, manifest) => assert Traced(Fresh(worktree, manifest));
        case Act(other, step) =>
          StepTraced(s[other], step);
          LogGrows(s[other], step);
      }
      RunKeepsLog(Next(s, events[0]).value, events[1..], id);
    }
  }

  /**
   * An event consumed by an owner that was then lost before admission is never
   * admitted, whatever happens afterwards.
   */
  lemma LostEventIsNeverAdmitted(s: Root, events: seq<Event>, more: seq<Event>, t: Root, id: ExecutionId, c: nat,
                                 k: nat)
    requires Reachable(s, events) && id in s && Run(s, more) == Some(t)
    requires c + 1 < |s[id].log| && s[id].log[c].WasConsumed? && s[id].log[c + 1] == OwnerLost
    ensures id in t && (k < Generation(t[id]) ==> t[id].record.attempts[k].event != Some(s[id].log[c].preview.event))
  {
    RunTraced(map[], events);
    RunAppend(map[], events, more);
    RunKeepsLog(s, more, id);
    RunTraced(map[], events + more);
    assert Traced(t[id]);
    if 0 < k < Generation(t[id]) {
      var a, d := RetryWasApprovedThenConsumed(t, events + more, id, k);
      assert t[id].log[c] == s[id].log[c] && t[id].log[c + 1] == OwnerLost;
      assert d != c;
    }
  }

  // ----- the bound on tick-driven recovery -----

  function Approvals(log: seq<Entry>): nat {
    if log == [] then 0
    else Approvals(log[..|log| - 1]) + (if log[|log| - 1].WasApproved? then 1 else 0)
  }

  lemma ApprovalsAppend(log: seq<Entry>, x: Entry)
    ensures Approvals(log + [x]) == Approvals(log) + (if x.WasApproved? then 1 else 0)
  {
    assert (log + [x])[..|log|] == log;
  }

  /**
   * Position of an intent in the lexicographic order of generation and reissue:
   * each approval moves it up, and invalidation, retraction and consumption keep it.
   */
  function Spent(intent: Option<R.Intent>): int {
    if intent.None? then 0
    else (intent.value.preview.generation - 1) * (R.MAX_REISSUES + 1) + intent.value.reissues + 1
  }

  ghost predicate Bounded(e: Execution) {
    && Approvals(e.log) <= Spent(e.intent)
    && (e.intent.Some? ==>
          && e.intent.value.approver == R.Tick
          && 1 <= e.intent.value.preview.generation <= Generation(e)
          && e.intent.value.preview.generation < R.MAX_GENERATIONS
          && e.intent.value.reissues <= R.MAX_REISSUES)
    && Generation(e) <= R.MAX_GENERATIONS
    && (e.owner.Consumed? ==> e.owner.preview.generation < R.MAX_GENERATIONS)
    && (e.owner.Authorized? && e.owner.event.Some? ==> Generation(e) < R.MAX_GENERATIONS)
  }

  predicate ByOperator(s: Step) {
    s.Control? && (s.control.OperatorPrepare? || s.control.OperatorApprove?)
  }

  lemma ReleaseBounded(e: Execution)
    requires Bounded(e)
    ensures Bounded(Release(e))
  {
    ApprovalsAppend(e.log, OwnerLost);
  }

  lemma RecoveryStepBounded(e: Execution, s: ClientStep)
    requires Traced(e) && Bounded(e) && DoClient(e, s).Some? && IsRecoveryStep(s)
    ensures Bounded(DoClient(e, s).value)
  {
    ReleaseBounded(e);
    match s {
      case Begin =>
      case Consume(evidence) => ConsumeBounded(e, e.owner.request.value, evidence);
      case Authorize => AuthorizeIsFresh(e.record, e.owner.preview.generation, e.owner.preview.event);
      case AdmitNow(peers) =>
        AdmitKeepsHistory(e.record, e.owner.event);
        ApprovalsAppend(e.log, WasAdmitted(|e.record.attempts| + 1, e.owner.event));
    }
  }

  lemma ConsumeBounded(e: Execution, event: EventId, evidence: R.Evidence)
    requires Bounded(e) && e.owner.Loaded?
    ensures Bounded(ConsumeEvent(e, event, evidence))
  {
    ReleaseBounded(e);
    match R.Validate(e.record, e.intent, event, evidence) {
      case Valid(preview) => ApprovalsAppend(e.log, WasConsumed(preview, evidence));
      case _ =>
    }
  }

  lemma TickBounded(e: Execution, peers: bool, evidence: R.Evidence, event: EventId)
    requires Traced(e) && Bounded(e) && e.owner.Free? && event !in e.events
    ensures Bounded(DoControl(e, TickApprove(peers, evidence, event)).value)
    ensures var after := DoControl(e, TickApprove(peers, evidence, event)).value;
      after.log != e.log ==> Spent(after.intent) > Spent(e.intent)
  {
    R.PolicyEffect(e.record, e.intent, peers, evidence, event, R.MAX_GENERATIONS);
    var (verdict, intent) := R.AutoApprove(e.record, e.intent, peers, evidence, event, R.MAX_GENERATIONS);
    if verdict.reason == R.JustApproved {
      ApprovalsAppend(e.log, WasApproved(intent.value.preview, R.Tick));
    }
  }

  lemma StepBounded(e: Execution, s: Step)
    requires Traced(e) && Bounded(e) && Local(e, s).Some? && !ByOperator(s)
    ensures Bounded(Local(e, s).value)
  {
    match s {
      case Client(client) =>
        if IsRecoveryStep(client) { RecoveryStepBounded(e, client); } else { ClientIsQuiet(e, client); }
      case Collect(collect) => CollectIsQuiet(e, collect);
      case Sweep(sweep) => SweepIsQuiet(e, sweep);
      case Control(control) =>
        if control.TickApprove? { TickBounded(e, control.peersResolved, control.evidence, control.event); }
      case Crash => ReleaseBounded(e);
      case _ =>
    }
  }

  predicate WithoutOperators(events: seq<Event>) {
    forall i :: 0 <= i < |events| ==> events[i].Act? ==> !ByOperator(events[i].step)
  }

  lemma {:induction false} RunBounded(s: Root, events: seq<Event>)
    requires (forall id :: id in s ==> Traced(s[id]) && Bounded(s[id])) && Run(s, events).Some?
    requires WithoutOperators(events)
    ensures forall id :: id in Run(s, events).value ==> Bounded(Run(s, events).value[id])
    decreases |events|
  {
    if events != [] {
      var next := Next(s, events[0]).value;
      match events[0] {
        case Register(id, worktree, manifest) =>
          assert Traced(Fresh(worktree, manifest)) && Bounded(Fresh(worktree, manifest));
        case Act(id, step) =>
          StepTraced(s[id], step);
          StepBounded(s[id], step);
      }
      RunBounded(next, events[1..]);
    }
  }

  /**
   * Without operator intents, no run gives an execution more than
   * MAX_GENERATIONS attempts, and the tick approves at most MAX_REISSUES + 1
   * times for each generation that may be resumed.
   */
  lemma TickRecoveryIsBounded(s: Root, events: seq<Event>, id: ExecutionId)
    requires Reachable(s, events) && id in s && WithoutOperators(events)
    ensures Generation(s[id]) <= R.MAX_GENERATIONS
    ensures Approvals(s[id].log) <= (R.MAX_GENERATIONS - 1) * (R.MAX_REISSUES + 1)
  {
    RunBounded(map[], events);
    assert Bounded(s[id]);
  }
}
