/**
 * Exclusive ownership and sound cleanup evidence over every run of the step
 * system, for every interleaving of daemons, sweeps, waiters and ticks, and for
 * a crash at every program point.
 */
module Ownership {
  import opened Common
  import opened ProcessCleanup
  import opened ExecutionRecords
  import opened Supervision
  import R = Recovery

  // ----- the invariant of one execution -----

  /** No process of this attempt runs without a receipt that a sweep can act on or will miss. */
  ghost predicate Receipted(e: Execution, process: Identity)
    requires e.record.attempts != []
  {
    var last := Last(e.record);
    process in last.direct || last.client == Some(process)
  }

  /** A spawn of this attempt may exist that no receipt names; every sweep then stays unconfirmed. */
  ghost predicate MayLackReceipt(e: Execution)
    requires e.record.attempts != []
  {
    var last := Last(e.record);
    || (last.client.None? && last.direct == [])
    || (PendingLaunch(e) && e.marker.value.generation == Generation(e) && |last.direct| == e.marker.value.rootsBefore)
  }

  ghost predicate History(e: Execution) {
    && ValidRecord(e.record)
    && (forall i :: 0 <= i < |e.record.attempts| - 1 ==> Resolved(e.record.attempts[i]))
    && (forall process :: process in e.alive ==> process in e.born && e.born[process] == Generation(e))
    && |e.alive| <= 1
    && (forall process :: process in e.born ==> 1 <= e.born[process] <= Generation(e))
  }

  ghost predicate Evidence(e: Execution) {
    if e.record.attempts == [] then e.alive == {} && e.marker == None
    else
      var last := Last(e.record);
      && (last.cleanup == Cleanup.Confirmed ==> e.alive == {})
      && (last.direct != [] ==> last.client.Some?)
      && (forall process :: process in e.alive ==> Receipted(e, process) || MayLackReceipt(e))
      && (e.marker.Some? ==> e.marker.value.generation <= Generation(e))
      && (PendingLaunch(e) && e.marker.value.generation < Generation(e) ==> e.torn)
      && (PendingLaunch(e) && Resolved(last) ==> e.torn)
  }

  /** What each program point knows about the attempt it owns. */
  ghost predicate AtPoint(e: Execution) {
    var stale := PendingLaunch(e) ==> e.torn;
    match e.owner
    case Free => true
    case Loaded(_) => true
    case Consumed(preview) => e.record.attempts != [] && Resolved(Last(e.record)) && preview.generation == Generation(e)
    case Authorized(event) => true
    case JustAdmitted => Unlaunched(e) && e.alive == {}
    case Registered => Unlaunched(e) && e.alive == {}
    case ClientSpawned(child) => Unlaunched(e) && e.alive <= {child} && child in e.born
    case ClientLaunched(child) => Launched(e, child) && Last(e.record).direct == [] && Last(e.record).cleanup == Pending
    case ClientOwned(child) => Launched(e, child) && Last(e.record).direct == [child]
    case Collecting(_) => Active(e) && Last(e.record).cleanup == Cleanup.Confirmed && stale
    case MarkerSet(_) => Active(e) && Last(e.record).cleanup == Cleanup.Confirmed && Window(e, |Last(e.record).direct|)
    case Uncertain(_) => Doubtful(e) && e.alive == {} && Window(e, |Last(e.record).direct|)
    case CheckRefused(_) => Doubtful(e) && e.alive == {}
    case RefusalCleared(_) => Doubtful(e) && e.alive == {} && !PendingLaunch(e)
    case CheckSpawned(_, child) =>
      Doubtful(e) && e.alive <= {child} && child in e.born && Window(e, |Last(e.record).direct|)
    case CheckReceipted(_, child) =>
      && Doubtful(e) && e.alive <= {child} && child in Last(e.record).direct
      && Window(e, |Last(e.record).direct| - 1)
    case CheckLaunched(_, child) => Inventory(e, child)
    case CheckOwned(_, child) => Inventory(e, child)
    case ExitRecorded(_, child, _, clean) => Inventory(e, child) && (clean ==> e.alive == {})
    case Inventoried(_, child, _, clean) => Inventory(e, child) && (clean ==> e.alive == {})
    case Cleared(_, _, clean) => Doubtful(e) && !PendingLaunch(e) && (clean ==> e.alive == {})
    case Ending(status, _, cleanup) => EndingFacts(e, status, cleanup)
    case SweepLoaded => true
    case SweepCleaned(confirmed) => SweepFacts(e, confirmed)
    case SweepMarked(settled) =>
      && e.record.attempts != []
      && (Resolved(Last(e.record)) ==> e.torn)
      && (settled ==> e.alive == {} && !PendingLaunch(e))
  }

  ghost predicate Active(e: Execution) {
    && e.record.attempts != []
    && !Terminal(Last(e.record).status)
    && Last(e.record).client.Some?
  }

  ghost predicate Unlaunched(e: Execution) {
    && e.record.attempts != []
    && Last(e.record).status == Status.Admitted
    && Last(e.record).cleanup == Pending
    && Last(e.record).client.None?
    && Last(e.record).direct == []
    && (PendingLaunch(e) ==> e.marker.value.generation < Generation(e))
  }

  ghost predicate Launched(e: Execution, child: Identity) {
    && Active(e)
    && Last(e.record).client == Some(child)
    && e.alive <= {child} && child in e.born
    && (PendingLaunch(e) ==> e.marker.value.generation < Generation(e))
  }

  ghost predicate Doubtful(e: Execution) {
    Active(e) && Last(e.record).cleanup == Unconfirmed
  }

  ghost predicate Inventory(e: Execution, child: Identity) {
    Doubtful(e) && e.alive <= {child} && child in Last(e.record).direct && !PendingLaunch(e)
  }

  ghost predicate EndingFacts(e: Execution, status: Status, cleanup: Option<Cleanup>) {
    && e.record.attempts != [] && !Terminal(Last(e.record).status) && Terminal(status)
    && (cleanup == Some(Cleanup.Confirmed) ==> e.alive == {})
    && (Chosen(cleanup, Last(e.record).cleanup) == Cleanup.Confirmed && PendingLaunch(e) ==> e.torn)
  }

  /** There are receipts, and the process of none of them is alive. */
  ghost predicate AllGone(e: Execution)
    requires e.record.attempts != []
  {
    Known(Last(e.record)) != [] && forall process :: process in Known(Last(e.record)) ==> process !in e.alive
  }

  ghost predicate SweepFacts(e: Execution, confirmed: bool) {
    && e.record.attempts != []
    && (Resolved(Last(e.record)) ==> e.torn)
    && (confirmed ==> AllGone(e))
  }

  ghost predicate Window(e: Execution, roots: int) {
    && e.marker.Some? && e.marker.value.generation == Generation(e)
    && e.marker.value.pending && e.marker.value.rootsBefore == roots
  }

  ghost predicate Sound(e: Execution) {
    History(e) && Evidence(e) && AtPoint(e)
  }

  // ----- one step keeps it -----

  /** What a step may do to resolution: only admission, or a torn marker, makes an attempt unresolved. */
  ghost predicate Monotone(e: Execution, after: Execution, admits: bool) {
    && after.record.worktree == e.record.worktree
    && (e.torn ==> after.torn)
    && (Unresolved(after.record) ==> Unresolved(e.record) || after.torn || admits)
  }

  /** The two parts that do not depend on the program point. */
  ghost predicate Core(e: Execution) {
    History(e) && Evidence(e)
  }

  /** A write touches the last attempt only, and either all of it happens or none of it. */
  lemma WriteIsAtomic(e: Execution, c: Changes, next: Owner, failed: Owner)
    requires History(e) && e.record.attempts != []
    ensures Written(e, Write(e, c, next, failed), c, next, failed)
  {
    var outcome := UpdateAttempt(e.record, Generation(e), c);
    if outcome.Success? {
      forall i | 0 <= i < |e.record.attempts| - 1
        ensures Resolved(outcome.value.attempts[i])
      {
        assert outcome.value.attempts[i] == e.record.attempts[i];
      }
    }
  }

  ghost predicate Written(e: Execution, after: Execution, c: Changes, next: Owner, failed: Owner)
    requires e.record.attempts != []
  {
    && History(after)
    && after == e.(record := after.record, owner := after.owner)
    && Generation(after) == Generation(e)
    && after.record.worktree == e.record.worktree
    && (|| (after.record == e.record && after.owner == failed)
        || (&& after.owner == next
            && Last(after.record) == Patched(Last(e.record), c)
            && (Terminal(Last(e.record).status) ==> Last(after.record).status == Last(e.record).status)))
  }

  ghost predicate Kept(e: Execution, after: Execution) {
    Sound(after) && Monotone(e, after, false)
  }

  // The daemon around its client.

  lemma AdmissionSound(e: Execution, event: Option<EventId>, peers: bool)
    requires Core(e)
    ensures var after := AdmitAttempt(e, event, peers);
      Sound(after) && Monotone(e, after, peers)
  {
    AdmitKeepsHistory(e.record, event);
  }

  /** Recovery intents and the log play no part in ownership. */
  lemma CoreIgnoresIntent(e: Execution, after: Execution)
    requires Core(e)
    requires after == e.(intent := after.intent, owner := after.owner, log := after.log, events := after.events)
    ensures Core(after) && Monotone(e, after, false)
  {
  }

  lemma ConsumeSound(e: Execution, event: EventId, evidence: R.Evidence)
    requires Core(e)
    ensures Kept(e, ConsumeEvent(e, event, evidence))
  {
    CoreIgnoresIntent(e, ConsumeEvent(e, event, evidence));
  }

  lemma AuthorizeSound(e: Execution, preview: R.Preview)
    requires Core(e)
    ensures Kept(e, AuthorizeEvent(e, preview))
  {
    AuthorizeIsFresh(e.record, preview.generation, preview.event);
  }

  lemma RecordSupervisorSound(e: Execution, after: Execution, identity: Identity)
    requires Core(e) && Unlaunched(e) && e.alive == {}
    requires Written(e, after, KEEP.(supervisor := Some(identity)), Registered, Free)
    ensures Kept(e, after)
  {
  }


  lemma SpawnClientSound(e: Execution, child: Identity)
    requires Core(e) && Unlaunched(e) && e.alive == {} && child !in e.born
    ensures Kept(e, Spawn(e, child, ClientSpawned(child)))
  {
  }

  lemma RecordLaunchSound(e: Execution, after: Execution, child: Identity, started: int, deadline: int)
    requires Core(e) && Unlaunched(e) && e.alive <= {child} && child in e.born
    requires Written(e, after, LaunchReceipt(child, started, deadline), ClientLaunched(child), LOST_CLIENT)
    ensures Kept(e, after)
  {
  }


  lemma RecordRootsSound(e: Execution, after: Execution, child: Identity)
    requires Core(e) && Launched(e, child) && Last(e.record).direct == [] && Last(e.record).cleanup == Pending
    requires Written(e, after, KEEP.(direct := Some([child])), ClientOwned(child), LOST_CLIENT)
    ensures Kept(e, after)
  {
  }


  lemma ClientExitSound(e: Execution, after: Execution, child: Identity, expired: bool, code: Option<int>,
                        signal: Option<int>, clean: bool)
    requires Core(e) && Launched(e, child) && Last(e.record).direct == [child] && (clean ==> child !in e.alive)
    requires Written(e, after, ExitReceipt(e, child, expired, code, signal, clean),
                     AfterClient(e, expired, code, clean), Free)
    ensures Kept(e, after)
  {
  }


  lemma FinishSound(e: Execution, after: Execution, status: Status, reason: Option<Reason>, cleanup: Option<Cleanup>)
    requires Core(e) && EndingFacts(e, status, cleanup)
    requires Written(e, after, KEEP.(status := Some(status), reason := reason, cleanup := cleanup), Free, Free)
    ensures Kept(e, after)
  {
  }


  /** Every way a daemon gives up on the attempt leads to a terminal write that keeps the evidence. */
  lemma AbandonSound(e: Execution, owner: Owner, torn: bool, promoted: set<nat>)
    requires Core(e) && e.record.attempts != [] && !Terminal(Last(e.record).status)
    requires owner.Ending? && Terminal(owner.status)
    requires owner.cleanup == Some(Cleanup.Confirmed) ==> e.alive == {}
    requires Chosen(owner.cleanup, Last(e.record).cleanup) == Cleanup.Confirmed ==> !PendingLaunch(e) || e.torn || torn
    ensures Kept(e, e.(owner := owner, torn := e.torn || torn, promoted := promoted))
  {
  }

  // The collector's owned processes.

  lemma SetMarkerSound(e: Execution, late: bool)
    requires Core(e) && Active(e) && Last(e.record).cleanup == Cleanup.Confirmed
    ensures Kept(e, WithMarker(e, true, MarkerSet(late)))
  {
  }

  lemma MarkUncertainSound(e: Execution, after: Execution, late: bool)
    requires Core(e) && Active(e) && Last(e.record).cleanup == Cleanup.Confirmed && Window(e, |Last(e.record).direct|)
    requires Written(e, after, KEEP.(cleanup := Some(Unconfirmed)), Uncertain(late), Abandoned(late, ResultInvalid))
    ensures Kept(e, after.(torn := e.torn || !after.owner.Uncertain?))
  {
  }


  lemma SpawnCheckSound(e: Execution, late: bool, child: Identity)
    requires Core(e) && Doubtful(e) && e.alive == {} && Window(e, |Last(e.record).direct|) && child !in e.born
    ensures Kept(e, Spawn(e, child, CheckSpawned(late, child)))
  {
  }

  lemma RecordRootSound(e: Execution, after: Execution, late: bool, child: Identity)
    requires Core(e) && Doubtful(e) && e.alive <= {child} && child in e.born && Window(e, |Last(e.record).direct|)
    requires Written(e, after, InventoryOf(e, [child]), CheckReceipted(late, child), Abandoned(late, ResultInvalid))
    ensures Kept(e, after)
  {
  }


  lemma ClearLaunchSound(e: Execution, late: bool, child: Identity)
    requires Core(e) && Doubtful(e) && e.alive <= {child} && child in Last(e.record).direct
    ensures Kept(e, WithMarker(e, false, CheckLaunched(late, child)))
  {
  }

  lemma InventorySound(e: Execution, after: Execution, next: Owner, late: bool, child: Identity)
    requires Core(e) && Inventory(e, child)
    requires || next == CheckOwned(late, child)
             || (next.Inventoried? && next.child == child && (next.clean ==> e.alive == {}))
    requires Written(e, after, InventoryOf(e, []), next, Abandoned(late, ResultInvalid))
    ensures Kept(e, after)
  {
  }


  lemma CheckExitSound(e: Execution, late: bool, child: Identity, outcome: CheckOutcome, clean: bool, expired: set<nat>)
    requires Core(e) && Inventory(e, child) && (clean ==> child !in e.alive)
    ensures Kept(e, e.(expired := expired, owner := ExitRecorded(late, child, outcome, clean)))
  {
  }

  lemma ClearExitSound(e: Execution, late: bool, child: Identity, outcome: CheckOutcome, clean: bool)
    requires Core(e) && Inventory(e, child) && (clean ==> e.alive == {})
    ensures Kept(e, WithMarker(e, false, Cleared(late, outcome, clean)))
  {
  }

  lemma ConfirmSound(e: Execution, after: Execution, next: Owner, late: bool)
    requires Core(e) && Doubtful(e) && !PendingLaunch(e) && e.alive == {}
    requires next == Collecting(late) || (next.Ending? && next.cleanup.None? && Terminal(next.status))
    requires Written(e, after, KEEP.(cleanup := Some(Cleanup.Confirmed)), next, Abandoned(late, ResultInvalid))
    ensures Kept(e, after)
  {
  }


  lemma ClearRefusalSound(e: Execution, late: bool)
    requires Core(e) && Doubtful(e) && e.alive == {}
    ensures Kept(e, WithMarker(e, false, RefusalCleared(late)))
  {
  }

  // The sweep.

  /**
   * When a sweep has seen every receipt's process dead and no launch is left
   * pending, no process at all is left: an unreceipted one keeps the marker pending.
   */
  lemma SweptMeansDead(e: Execution, confirmed: bool)
    requires Core(e) && e.record.attempts != []
    requires confirmed ==> AllGone(e)
    ensures var marker := MarkerAfterCleanup(e, confirmed);
      && (confirmed && !(marker.Some? && marker.value.pending) ==> e.alive == {})
      && (marker != e.marker ==> confirmed && e.alive == {})
  {
    if confirmed {
      forall process | process in e.alive
        ensures MayLackReceipt(e)
      {
        assert process !in Known(Last(e.record));
        assert !Receipted(e, process);
      }
    }
  }

  lemma ClearMarkerSound(e: Execution, confirmed: bool)
    requires Core(e) && SweepFacts(e, confirmed)
    ensures var marker := MarkerAfterCleanup(e, confirmed);
      Kept(e, e.(marker := marker, owner := SweepMarked(confirmed && !(marker.Some? && marker.value.pending))))
  {
    SweptMeansDead(e, confirmed);
  }

  lemma WriteOutcomeSound(e: Execution, after: Execution, settled: bool)
    requires Core(e) && e.record.attempts != [] && (Resolved(Last(e.record)) ==> e.torn)
    requires settled ==> e.alive == {} && !PendingLaunch(e)
    requires Written(e, after, SweepOutcome(e, settled), Free, Free)
    ensures Kept(e, after)
  {
  }


  // Dispatch.

  predicate IsClientWrite(s: ClientStep) {
    s.RecordSupervisor? || s.RecordLaunch? || s.RecordRoots? || s.ClientExit? || s.Finish?
  }

  lemma ClientWriteSound(e: Execution, s: ClientStep)
    requires Sound(e) && DoClient(e, s).Some? && IsClientWrite(s)
    ensures Kept(e, DoClient(e, s).value)
  {
    var after, owner := DoClient(e, s).value, e.owner;
    match s {
      case RecordSupervisor(identity) =>
        WriteIsAtomic(e, KEEP.(supervisor := Some(identity)), Registered, Free);
        RecordSupervisorSound(e, after, identity);
      case RecordLaunch(started, deadline) =>
        WriteIsAtomic(e, LaunchReceipt(owner.child, started, deadline), ClientLaunched(owner.child), LOST_CLIENT);
        RecordLaunchSound(e, after, owner.child, started, deadline);
      case RecordRoots =>
        WriteIsAtomic(e, KEEP.(direct := Some([owner.child])), ClientOwned(owner.child), LOST_CLIENT);
        RecordRootsSound(e, after, owner.child);
      case ClientExit(expired, code, signal, clean) =>
        WriteIsAtomic(e, ExitReceipt(e, owner.child, expired, code, signal, clean),
                      AfterClient(e, expired, code, clean), Free);
        ClientExitSound(e, after, owner.child, expired, code, signal, clean);
      case Finish =>
        WriteIsAtomic(e, KEEP.(status := Some(owner.status), reason := owner.reason, cleanup := owner.cleanup), Free,
                      Free);
        FinishSound(e, after, owner.status, owner.reason, owner.cleanup);
    }
  }

  lemma ClientStepSound(e: Execution, s: ClientStep)
    requires Sound(e) && DoClient(e, s).Some?
    ensures Sound(DoClient(e, s).value)
    ensures Monotone(e, DoClient(e, s).value, s == AdmitNow(true))
  {
    var after := DoClient(e, s).value;
    if IsClientWrite(s) {
      ClientWriteSound(e, s);
    } else {
      match s {
        case Begin => CoreIgnoresIntent(e, after);
        case Consume(evidence) => ConsumeSound(e, e.owner.request.value, evidence);
        case Authorize => AuthorizeSound(e, e.owner.preview);
        case AdmitNow(peers) => AdmissionSound(e, e.owner.event, peers);
        case SpawnClient(process) => SpawnClientSound(e, process);
        case RefuseClient => AbandonSound(e, after.owner, e.torn, e.promoted);
        case LoseClient => AbandonSound(e, after.owner, e.torn, e.promoted);
      }
    }
  }

  predicate IsLaunchStep(s: CollectStep) {
    s.SetMarker? || s.MarkUncertain? || s.SpawnCheck? || s.RefuseCheck? || s.RecordRoot? || s.ClearLaunch?
  }

  lemma LaunchStepSound(e: Execution, s: CollectStep)
    requires Sound(e) && DoCollect(e, s).Some? && IsLaunchStep(s)
    ensures Kept(e, DoCollect(e, s).value)
  {
    var after, late := DoCollect(e, s).value, e.owner.late;
    var invalid := Abandoned(late, ResultInvalid);
    match s {
      case SetMarker => SetMarkerSound(e, late);
      case MarkUncertain =>
        WriteIsAtomic(e, KEEP.(cleanup := Some(Unconfirmed)), Uncertain(late), invalid);
        MarkUncertainSound(e, after, late);
      case SpawnCheck(process) => SpawnCheckSound(e, late, process);
      case RefuseCheck => CoreIgnoresIntent(e, after);
      case RecordRoot =>
        WriteIsAtomic(e, InventoryOf(e, [e.owner.child]), CheckReceipted(late, e.owner.child), invalid);
        RecordRootSound(e, after, late, e.owner.child);
      case ClearLaunch => ClearLaunchSound(e, late, e.owner.child);
    }
  }

  predicate IsExitStep(s: CollectStep) {
    s.Reinventory? || s.CheckExit? || s.InventoryExit? || s.ClearExit?
  }

  lemma ExitStepSound(e: Execution, s: CollectStep)
    requires Sound(e) && DoCollect(e, s).Some? && IsExitStep(s)
    ensures Kept(e, DoCollect(e, s).value)
  {
    var after := DoCollect(e, s).value;
    var late := e.owner.late;
    var invalid := Abandoned(late, ResultInvalid);
    match s {
      case Reinventory =>
        WriteIsAtomic(e, InventoryOf(e, []), CheckOwned(late, e.owner.child), invalid);
        InventorySound(e, after, CheckOwned(late, e.owner.child), late, e.owner.child);
      case CheckExit(outcome, clean) => CheckExitSound(e, late, e.owner.child, outcome, clean, after.expired);
      case InventoryExit =>
        var next := Inventoried(late, e.owner.child, e.owner.outcome, e.owner.clean);
        WriteIsAtomic(e, InventoryOf(e, []), next, invalid);
        InventorySound(e, after, next, late, e.owner.child);
      case ClearExit => ClearExitSound(e, late, e.owner.child, e.owner.outcome, e.owner.clean);
    }
  }

  lemma ConfirmExitSound(e: Execution)
    requires Core(e) && e.owner.Cleared? && Doubtful(e) && !PendingLaunch(e) && (e.owner.clean ==> e.alive == {})
    ensures Kept(e, DoCollect(e, ConfirmExit).value)
  {
    if e.owner.clean {
      var next := AfterCheck(e.owner.late, e.owner.outcome, true);
      WriteIsAtomic(e, KEEP.(cleanup := Some(Cleanup.Confirmed)), next, Abandoned(e.owner.late, ResultInvalid));
      ConfirmSound(e, DoCollect(e, ConfirmExit).value, next, e.owner.late);
    } else {
      AbandonSound(e, AfterCheck(e.owner.late, e.owner.outcome, false), e.torn, e.promoted);
    }
  }

  lemma FailWriteSound(e: Execution)
    requires Sound(e) && DoCollect(e, FailWrite).Some?
    ensures Kept(e, DoCollect(e, FailWrite).value)
  {
    AbandonSound(e, Abandoned(e.owner.late, ResultInvalid), e.torn || e.owner.MarkerSet?, e.promoted);
  }

  lemma ConfirmRefusalSound(e: Execution, overdue: bool)
    requires Core(e) && e.owner.RefusalCleared? && Doubtful(e) && e.alive == {} && !PendingLaunch(e)
    ensures Kept(e, DoCollect(e, ConfirmRefusal(overdue)).value)
  {
    var late := e.owner.late;
    WriteIsAtomic(e, KEEP.(cleanup := Some(Cleanup.Confirmed)), AfterRefusal(late, overdue),
                  Abandoned(late, ResultInvalid));
    ConfirmSound(e, DoCollect(e, ConfirmRefusal(overdue)).value, AfterRefusal(late, overdue), late);
  }

  lemma GivingUpSound(e: Execution, s: CollectStep)
    requires Sound(e) && DoCollect(e, s).Some? && (s.ClearRefusal? || s.LoseCheck? || s.EndCollection?)
    ensures Kept(e, DoCollect(e, s).value)
  {
    var after := DoCollect(e, s).value;
    match s {
      case ClearRefusal => ClearRefusalSound(e, e.owner.late);
      case LoseCheck => AbandonSound(e, after.owner, e.torn, e.promoted);
      case EndCollection(_, _, _) => AbandonSound(e, after.owner, e.torn, after.promoted);
    }
  }

  lemma CollectStepSound(e: Execution, s: CollectStep)
    requires Sound(e) && DoCollect(e, s).Some?
    ensures Kept(e, DoCollect(e, s).value)
  {
    if IsLaunchStep(s) { LaunchStepSound(e, s); }
    else if IsExitStep(s) { ExitStepSound(e, s); }
    else if s.ConfirmExit? { ConfirmExitSound(e); }
    else if s.ConfirmRefusal? { ConfirmRefusalSound(e, s.overdue); }
    else if s.FailWrite? { FailWriteSound(e); }
    else { GivingUpSound(e, s); }
  }

  lemma InspectSound(e: Execution, supervisorAlive: bool, clean: bool)
    requires Core(e) && DoSweep(e, Inspect(supervisorAlive, clean)).Some?
    ensures Kept(e, DoSweep(e, Inspect(supervisorAlive, clean)).value)
  {
    CoreIgnoresIntent(e, DoSweep(e, Inspect(supervisorAlive, clean)).value);
  }

  lemma SweepWriteSound(e: Execution)
    requires Core(e) && e.owner.SweepMarked? && e.record.attempts != [] && (Resolved(Last(e.record)) ==> e.torn)
    requires e.owner.settled ==> e.alive == {} && !PendingLaunch(e)
    ensures Kept(e, DoSweep(e, WriteOutcome).value)
  {
    WriteIsAtomic(e, SweepOutcome(e, e.owner.settled), Free, Free);
    WriteOutcomeSound(e, DoSweep(e, WriteOutcome).value, e.owner.settled);
  }

  lemma SweepStepSound(e: Execution, s: SweepStep)
    requires Sound(e) && DoSweep(e, s).Some?
    ensures Kept(e, DoSweep(e, s).value)
  {
    var after := DoSweep(e, s).value;
    match s {
      case Inspect(supervisorAlive, clean) => InspectSound(e, supervisorAlive, clean);
      case ClearMarker => ClearMarkerSound(e, e.owner.confirmed);
      case WriteOutcome => SweepWriteSound(e);
    }
  }

  lemma ControlStepSound(e: Execution, s: ControlStep)
    requires Core(e) && e.owner.Free? && DoControl(e, s).Some?
    ensures Kept(e, DoControl(e, s).value)
  {
    CoreIgnoresIntent(e, DoControl(e, s).value);
  }

  lemma ExitKeepsCore(e: Execution, process: Identity)
    requires Core(e)
    ensures Core(e.(alive := e.alive - {process})) && Monotone(e, e.(alive := e.alive - {process}), false)
  {
  }

  lemma ProcessExitSound(e: Execution, process: Identity)
    requires Sound(e)
    ensures Kept(e, e.(alive := e.alive - {process}))
  {
    ExitKeepsCore(e, process);
  }

  lemma StepSound(e: Execution, s: Step)
    requires Sound(e) && Local(e, s).Some?
    ensures Sound(Local(e, s).value)
    ensures Monotone(e, Local(e, s).value, s == Client(AdmitNow(true)))
  {
    var after := Local(e, s).value;
    match s {
      case AcquireDaemon(request) => CoreIgnoresIntent(e, after);
      case AcquireSweep => CoreIgnoresIntent(e, after);
      case Client(client) => ClientStepSound(e, client);
      case Collect(collect) => CollectStepSound(e, collect);
      case Sweep(sweep) => SweepStepSound(e, sweep);
      case Control(control) => ControlStepSound(e, control);
      case ProcessExit(process) => ProcessExitSound(e, process);
      case Crash => CoreIgnoresIntent(e, after);
    }
  }

  // ----- the whole root -----

  ghost predicate IsDaemon(owner: Owner) {
    !owner.Free? && !owner.SweepLoaded? && !owner.SweepCleaned? && !owner.SweepMarked?
  }

  ghost predicate Peers(s: Root, a: ExecutionId, b: ExecutionId) {
    a in s && b in s && a != b && s[a].record.worktree == s[b].record.worktree
  }

  /** One owner per worktree, and no process of a peer while a daemon owns the worktree. */
  ghost predicate Exclusive(s: Root) {
    && (forall a, b :: Peers(s, a, b) ==> s[a].owner.Free? || s[b].owner.Free?)
    && (forall a, b :: Peers(s, a, b) && IsDaemon(s[a].owner) ==> s[b].alive == {})
    && (forall a, b :: Peers(s, a, b) ==> s[a].alive == {} || s[b].alive == {})
    && (forall a, b :: Peers(s, a, b) && Unresolved(s[a].record) && Unresolved(s[b].record) ==> s[a].torn || s[b].torn)
  }

  ghost predicate RootSound(s: Root) {
    (forall id :: id in s ==> Sound(s[id])) && Exclusive(s)
  }

  /** Only a daemon spawns, and taking part in a worktree keeps its place in the owner table. */
  lemma LocalOwnership(e: Execution, s: Step)
    requires Local(e, s).Some?
    ensures var after := Local(e, s).value;
      && (after.alive <= e.alive || IsDaemon(e.owner))
      && (e.owner.Free? && !s.AcquireDaemon? && !s.AcquireSweep? ==> after.owner.Free? && after.alive <= e.alive)
      && (IsDaemon(after.owner) ==> IsDaemon(e.owner) || s.AcquireDaemon?)
  {
  }

  /** Resolved peers have no process left and nothing unresolved. */
  lemma ResolvedPeersAreQuiet(s: Root, id: ExecutionId)
    requires (forall other :: other in s ==> Sound(s[other])) && id in s && PeersResolved(Records(s), id)
    ensures forall b :: Peers(s, id, b) ==> s[b].alive == {} && !Unresolved(s[b].record)
  {
    forall b | Peers(s, id, b)
      ensures s[b].alive == {} && !Unresolved(s[b].record)
    {
      assert Records(s)[b] == s[b].record && Records(s)[id] == s[id].record;
      assert !HasUnresolvedAttempt(Records(s)[b]);
      if s[b].record.attempts != [] {
        assert Resolved(s[b].record.attempts[|s[b].record.attempts| - 1]);
      }
    }
  }

  lemma ActSound(s: Root, id: ExecutionId, step: Step)
    requires RootSound(s) && id in s && Allowed(s, id, step) && Local(s[id], step).Some?
    ensures RootSound(s[id := Local(s[id], step).value])
  {
    var e, after := s[id], Local(s[id], step).value;
    StepSound(e, step);
    LocalOwnership(e, step);
    var t := s[id := after];
    if step.AcquireDaemon? || step == Client(AdmitNow(true)) {
      ResolvedPeersAreQuiet(s, id);
    }
    forall a, b | Peers(t, a, b)
      ensures t[a].owner.Free? || t[b].owner.Free?
      ensures IsDaemon(t[a].owner) ==> t[b].alive == {}
      ensures t[a].alive == {} || t[b].alive == {}
      ensures Unresolved(t[a].record) && Unresolved(t[b].record) ==> t[a].torn || t[b].torn
    {
      assert Peers(s, a, b) && Peers(s, b, a);
      PairSound(s, id, step, a, b);
    }
  }

  lemma PairSound(s: Root, id: ExecutionId, step: Step, a: ExecutionId, b: ExecutionId)
    requires RootSound(s) && id in s && Allowed(s, id, step) && Local(s[id], step).Some? && Peers(s, a, b)
    requires Peers(s, b, a)
    requires Monotone(s[id], Local(s[id], step).value, step == Client(AdmitNow(true)))
    requires step.AcquireDaemon? || step == Client(AdmitNow(true)) ==>
      forall other :: Peers(s, id, other) ==> s[other].alive == {} && !Unresolved(s[other].record)
    ensures var t := s[id := Local(s[id], step).value];
      && (t[a].owner.Free? || t[b].owner.Free?)
      && (IsDaemon(t[a].owner) ==> t[b].alive == {})
      && (t[a].alive == {} || t[b].alive == {})
      && (Unresolved(t[a].record) && Unresolved(t[b].record) ==> t[a].torn || t[b].torn)
  {
    LocalOwnership(s[id], step);
    if id == a {
      assert Peers(s, id, b);
    } else if id == b {
      assert Peers(s, id, a);
    }
  }

  lemma NextSound(s: Root, event: Event)
    requires RootSound(s) && Next(s, event).Some?
    ensures RootSound(Next(s, event).value)
  {
    match event {
      case Register(id, worktree, manifest) =>
        var t := s[id := Fresh(worktree, manifest)];
        assert Sound(Fresh(worktree, manifest));
        forall a, b | Peers(t, a, b)
          ensures t[a].owner.Free? || t[b].owner.Free?
          ensures IsDaemon(t[a].owner) ==> t[b].alive == {}
          ensures t[a].alive == {} || t[b].alive == {}
          ensures Unresolved(t[a].record) && Unresolved(t[b].record) ==> t[a].torn || t[b].torn
        {
          if a != id && b != id { assert Peers(s, a, b); }
        }
      case Act(id, step) => ActSound(s, id, step);
    }
  }

  lemma {:induction false} RunSound(s: Root, events: seq<Event>)
    requires RootSound(s) && Run(s, events).Some?
    ensures RootSound(Run(s, events).value)
    decreases |events|
  {
    if events != [] {
      NextSound(s, events[0]);
      RunSound(Next(s, events[0]).value, events[1..]);
    }
  }

  // ----- the theorems -----

  /**
   * Cleanup evidence is sound: an attempt recorded terminal with confirmed cleanup
   * has no live process, whether or not the spawn's receipt was ever written.
   */
  lemma ConfirmedCleanupMeansDead(s: Root, events: seq<Event>, id: ExecutionId, process: Identity)
    requires Reachable(s, events) && id in s && process in s[id].born
    ensures 1 <= s[id].born[process] <= Generation(s[id])
    ensures Resolved(s[id].record.attempts[s[id].born[process] - 1]) ==> process !in s[id].alive
  {
    RunSound(map[], events);
    assert Sound(s[id]);
  }

  /** In every worktree at most one supervised process runs, over every run and crash. */
  lemma OneProcessPerWorktree(s: Root, events: seq<Event>, a: ExecutionId, b: ExecutionId, p: Identity, q: Identity)
    requires Reachable(s, events)
    requires a in s && b in s && s[a].record.worktree == s[b].record.worktree
    ensures p in s[a].alive && q in s[b].alive ==> a == b && p == q
  {
    RunSound(map[], events);
    assert Sound(s[a]);
    if a != b {
      assert Peers(s, a, b);
    } else if {p, q} <= s[a].alive {
      SubsetSize({p, q}, s[a].alive);
      assert p != q ==> |{p, q}| == 2;
    }
  }

  /** Every attempt except an execution's last is terminal with confirmed cleanup. */
  lemma EarlierAttemptsResolved(s: Root, events: seq<Event>, id: ExecutionId, i: nat)
    requires Reachable(s, events) && id in s && i < Generation(s[id]) - 1
    ensures Resolved(s[id].record.attempts[i])
  {
    RunSound(map[], events);
    assert Sound(s[id]);
  }

  /**
   * Each worktree has at most one unresolved attempt, as long as no write failed
   * and was survived between the launch marker and the uncertainty it announces.
   */
  lemma OneUnresolvedPerWorktree(s: Root, events: seq<Event>, a: ExecutionId, b: ExecutionId)
    requires Reachable(s, events) && Peers(s, a, b)
    requires !s[a].torn && !s[b].torn
    ensures !(Unresolved(s[a].record) && Unresolved(s[b].record))
    ensures s[a].owner.Free? || s[b].owner.Free?
  {
    RunSound(map[], events);
  }

  /** Without such a failure, a resolved attempt never has a launch pending. */
  lemma ResolvedMeansNoPendingLaunch(s: Root, events: seq<Event>, id: ExecutionId)
    requires Reachable(s, events) && id in s && !s[id].torn
    requires s[id].record.attempts != [] && Resolved(Last(s[id].record))
    ensures !PendingLaunch(s[id])
  {
    RunSound(map[], events);
    assert Sound(s[id]);
  }

  /** Every record a run writes passes the schema check, so no later load is refused. */
  lemma RecordsStayValid(s: Root, events: seq<Event>, id: ExecutionId)
    requires Reachable(s, events) && id in s
    ensures ValidRecord(s[id].record)
  {
    RunSound(map[], events);
    assert Sound(s[id]);
  }
}
