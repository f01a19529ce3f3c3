/**
 * Supervised execution as a step system over one store root.
 *
 * An `Execution` holds everything durable about one execution (record, recovery
 * intent, collector launch marker, exit ledger), the program point of the one
 * owner that holds its locks, and the processes it spawned. Every step is one
 * atomic write, one spawn, one observation, or a crash; a crash can happen at
 * every program point and releases the owner's locks.
 */
module Supervision {
  import opened Common
  import opened ProcessCleanup
  import opened ExecutionRecords
  import R = Recovery

  /** The collector's durable note that a spawn may have happened without a receipt. */
  datatype Marker = Marker(generation: nat, pending: bool, rootsBefore: nat)

  datatype CheckOutcome = Passed | Failed | Expired

  /** Program points of an owner; `late` marks collection after the client's deadline. */
  datatype Owner =
    | Free
    // the daemon, from taking both locks to the terminal write
    | Loaded(request: Option<EventId>)
    | Consumed(preview: R.Preview)
    | Authorized(event: Option<EventId>)
    | JustAdmitted
    | Registered
    | ClientSpawned(child: Identity)
    | ClientLaunched(child: Identity)
    | ClientOwned(child: Identity)
    | Collecting(late: bool)
    | MarkerSet(late: bool)
    | Uncertain(late: bool)
    | CheckSpawned(late: bool, child: Identity)
    | CheckReceipted(late: bool, child: Identity)
    | CheckLaunched(late: bool, child: Identity)
    | CheckOwned(late: bool, child: Identity)
    | ExitRecorded(late: bool, child: Identity, outcome: CheckOutcome, clean: bool)
    | Inventoried(late: bool, child: Identity, outcome: CheckOutcome, clean: bool)
    | Cleared(late: bool, outcome: CheckOutcome, clean: bool)
    | CheckRefused(late: bool)
    | RefusalCleared(late: bool)
    | Ending(status: Status, reason: Option<Reason>, cleanup: Option<Cleanup>)
    // the sweep
    | SweepLoaded
    | SweepCleaned(confirmed: bool)
    | SweepMarked(settled: bool)

  /** What happened to one execution's recovery events, in order. */
  datatype Entry =
    | WasApproved(preview: R.Preview, approver: R.Approver)
    | WasConsumed(preview: R.Preview, seen: R.Evidence)
    | WasAdmitted(generation: nat, carried: Option<EventId>)
    | OwnerLost

  datatype Execution = Execution(
    record: Record,
    intent: Option<R.Intent>,
    marker: Option<Marker>,
    expired: set<nat>,              // generations whose exit ledger holds a timed-out receipt
    promoted: set<nat>,             // generations whose result file is in its place
    owner: Owner,
    alive: set<Identity>,           // processes this execution spawned that still run
    born: map<Identity, nat>,       // every process it ever spawned, and for which generation
    events: set<EventId>,           // every event identifier ever generated for it
    log: seq<Entry>,
    torn: bool)                     // a write failed, and was handled, inside the launch window

  function Fresh(worktree: Worktree, manifest: bool): Execution {
    Execution(Record(worktree, manifest, [], None), None, None, {}, {}, Free, {}, map[], {}, [], false)
  }

  function Generation(e: Execution): nat { |e.record.attempts| }

  predicate PendingLaunch(e: Execution) { e.marker.Some? && e.marker.value.pending }

  /** Identities a sweep can name: the inventory, and the client if it is missing there. */
  function Known(attempt: Attempt): seq<Identity> {
    if attempt.client.Some? && attempt.client.value !in attempt.direct
    then attempt.direct + [attempt.client.value] else attempt.direct
  }

  // ----- steps -----

  datatype ClientStep =
    | Begin
    | Consume(evidence: R.Evidence)
    | Authorize
    | AdmitNow(peersResolved: bool)
    | RecordSupervisor(identity: Identity)
    | SpawnClient(process: Identity)
    | RefuseClient
    | RecordLaunch(started: int, deadline: int)
    | RecordRoots
    | ClientExit(expired: bool, code: Option<int>, signal: Option<int>, clean: bool)
    | LoseClient
    | Finish

  datatype CollectStep =
    | SetMarker
    | MarkUncertain
    | SpawnCheck(process: Identity)
    | RefuseCheck
    | RecordRoot
    | ClearLaunch
    | Reinventory
    | CheckExit(outcome: CheckOutcome, clean: bool)
    | InventoryExit
    | ClearExit
    | ConfirmExit
    | ClearRefusal
    | ConfirmRefusal(overdue: bool)
    | LoseCheck
    | EndCollection(status: Status, reason: Option<Reason>, placed: bool)
    | FailWrite

  datatype SweepStep =
    | Inspect(supervisorAlive: bool, clean: bool)
    | ClearMarker
    | WriteOutcome

  datatype ControlStep =
    | TickApprove(peersResolved: bool, evidence: R.Evidence, event: EventId)
    | WaiterValidate(event: EventId, evidence: R.Evidence)
    | OperatorPrepare(mode: R.Mode, evidence: R.Evidence, event: EventId)
    | OperatorApprove(preview: R.Preview, evidence: R.Evidence)

  datatype Step =
    | AcquireDaemon(request: Option<EventId>)
    | AcquireSweep
    | Client(client: ClientStep)
    | Collect(collect: CollectStep)
    | Sweep(sweep: SweepStep)
    | Control(control: ControlStep)
    | ProcessExit(process: Identity)
    | Crash

  /** One validated update of the last attempt; a refused or failed write goes to `failed`. */
  function Write(e: Execution, c: Changes, next: Owner, failed: Owner): Execution {
    match UpdateAttempt(e.record, Generation(e), c)
    case Success(updated) => e.(record := updated, owner := next)
    case Failure(_) => e.(owner := failed)
  }

  function Spawn(e: Execution, process: Identity, next: Owner): Execution {
    e.(alive := e.alive + {process}, born := e.born[process := Generation(e)], owner := next)
  }

  /** Leaving without the terminal write; a consumed but unadmitted event is lost. */
  function Release(e: Execution): Execution {
    e.(owner := Free, log := if e.owner.Consumed? || e.owner.Authorized? then e.log + [OwnerLost] else e.log)
  }

  const LOST_CLIENT := Ending(Interrupted, Some(ExitUnobservable), Some(Unconfirmed))

  /** How a collection that cannot go on ends the attempt. */
  function Abandoned(late: bool, reason: Reason): Owner {
    if late then Ending(TimedOut, Some(CollectionIncomplete), None)
    else if reason == CheckpointDeadlineExceeded then Ending(TimedOut, Some(reason), None)
    else if reason == ExitUnobservable then Ending(Interrupted, Some(reason), None)
    else Ending(Exited, Some(ResultInvalid), None)
  }

  /** The daemon outside collection. `None` means the step is not possible here. */
  function DoClient(e: Execution, s: ClientStep): Option<Execution> {
    match s
    case Begin =>
      if !(e.owner.Loaded? && e.owner.request.None?) then None
      else if e.record.attempts != [] then Some(Release(e))
      else Some(e.(owner := Authorized(None)))
    case Consume(evidence) =>
      if !(e.owner.Loaded? && e.owner.request.Some?) then None
      else Some(ConsumeEvent(e, e.owner.request.value, evidence))
    case Authorize => if !e.owner.Consumed? then None else Some(AuthorizeEvent(e, e.owner.preview))
    case AdmitNow(peersResolved) =>
      if !e.owner.Authorized? then None else Some(AdmitAttempt(e, e.owner.event, peersResolved))
    case RecordSupervisor(identity) =>
      if !(e.owner.JustAdmitted? && e.record.attempts != []) then None
      else Some(Write(e, KEEP.(supervisor := Some(identity)), Registered, Free))
    case SpawnClient(process) =>
      if !e.owner.Registered? || process in e.born then None else Some(Spawn(e, process, ClientSpawned(process)))
    case RefuseClient =>
      if !e.owner.Registered? then None
      else Some(e.(owner := Ending(Blocked, Some(ClientNotLaunched), Some(Cleanup.Confirmed))))
    case RecordLaunch(started, deadline) =>
      if !(e.owner.ClientSpawned? && e.record.attempts != []) then None
      else Some(Write(e, LaunchReceipt(e.owner.child, started, deadline), ClientLaunched(e.owner.child), LOST_CLIENT))
    case RecordRoots =>
      if !(e.owner.ClientLaunched? && e.record.attempts != []) then None
      else Some(Write(e, KEEP.(direct := Some([e.owner.child])), ClientOwned(e.owner.child), LOST_CLIENT))
    case LoseClient =>
      if e.owner.ClientSpawned? || e.owner.ClientLaunched? || e.owner.ClientOwned? then Some(e.(owner := LOST_CLIENT))
      else None
    case ClientExit(expired, code, signal, clean) =>
      if !(e.owner.ClientOwned? && e.record.attempts != []) || (clean && e.owner.child in e.alive) then None
      else Some(Write(e, ExitReceipt(e, e.owner.child, expired, code, signal, clean),
                      AfterClient(e, expired, code, clean), Free))
    case Finish =>
      if !(e.owner.Ending? && e.record.attempts != []) then None
      else Some(Write(e, KEEP.(status := Some(e.owner.status), reason := e.owner.reason, cleanup := e.owner.cleanup),
                      Free, Free))
  }

  /** Validation and consumption of a recovery event, in the source's one critical section. */
  function ConsumeEvent(e: Execution, event: EventId, evidence: R.Evidence): Execution {
    match R.Validate(e.record, e.intent, event, evidence)
    case Valid(preview) =>
      e.(intent := Some(R.Consume(e.intent.value)), owner := Consumed(preview),
         log := e.log + [WasConsumed(preview, evidence)])
    case StateChanged => Release(e.(intent := R.Invalidate(e.intent, event)))
    case _ => Release(e)
  }

  function AuthorizeEvent(e: Execution, preview: R.Preview): Execution {
    match AuthorizeRetry(e.record, preview.generation, preview.event)
    case Success(updated) => e.(record := updated, owner := Authorized(Some(preview.event)))
    case Failure(_) => Release(e)
  }

  function AdmitAttempt(e: Execution, event: Option<EventId>, peersResolved: bool): Execution {
    if !peersResolved then Release(e)
    else
      match Admit(e.record, event)
      case Success((updated, true)) =>
        e.(record := updated, owner := JustAdmitted, log := e.log + [WasAdmitted(|updated.attempts|, event)])
      case _ => Release(e)
  }

  function LaunchReceipt(child: Identity, started: int, deadline: int): Changes {
    KEEP.(status := Some(Running), client := Some(child), started := Some(started), deadline := Some(deadline))
  }

  /** Collection follows a clean zero exit, or a clean timeout of a phase with a manifest. */
  function AfterClient(e: Execution, expired: bool, code: Option<int>, clean: bool): Owner {
    if !expired && code == Some(0) && clean then Collecting(false)
    else if expired && clean && e.record.manifest then Collecting(true)
    else Free
  }

  function ExitReceipt(e: Execution, child: Identity, expired: bool, code: Option<int>, signal: Option<int>,
                       clean: bool): Changes {
    var after := AfterClient(e, expired, code, clean);
    KEEP.(
      status := Some(if after.Collecting? then Running else if expired then TimedOut else Exited),
      exit := Some((code, signal)),
      cleanup := Some(if clean then Cleanup.Confirmed else Unconfirmed),
      direct := Some([child]),
      reason := if after == Collecting(true) then Some(CollectionPending) else None)
  }

  /** Where a collected exit leads: the next check, or the end of the attempt. */
  function AfterCheck(late: bool, outcome: CheckOutcome, clean: bool): Owner {
    if outcome == Expired then Abandoned(late, CheckpointDeadlineExceeded)
    else if !clean then Abandoned(late, ExitUnobservable)
    else if outcome == Failed then Abandoned(late, ResultInvalid)
    else Collecting(late)
  }

  /** A check that could not be launched ends the attempt: out of time, or with an invalid result. */
  function AfterRefusal(late: bool, overdue: bool): Owner {
    Abandoned(late, if overdue then CheckpointDeadlineExceeded else ResultInvalid)
  }

  predicate IsCollecting(owner: Owner) {
    owner.Collecting? || owner.MarkerSet? || owner.Uncertain? || owner.CheckSpawned? || owner.CheckReceipted?
    || owner.CheckLaunched? || owner.CheckOwned? || owner.ExitRecorded? || owner.Inventoried? || owner.Cleared?
    || owner.CheckRefused? || owner.RefusalCleared?
  }

  /** One owned check or review process, write by write. */
  function DoCollect(e: Execution, s: CollectStep): Option<Execution> {
    if e.record.attempts == [] || !IsCollecting(e.owner) then None
    else
      var owner := e.owner;
      var late := owner.late;
      var invalid := Abandoned(late, ResultInvalid);
      match s
      case SetMarker => if !owner.Collecting? then None else Some(WithMarker(e, true, MarkerSet(late)))
      case MarkUncertain =>
        if !owner.MarkerSet? then None
        else
          var after := Write(e, KEEP.(cleanup := Some(Unconfirmed)), Uncertain(late), invalid);
          Some(after.(torn := e.torn || !after.owner.Uncertain?))
      case SpawnCheck(process) =>
        if !owner.Uncertain? || process in e.born then None else Some(Spawn(e, process, CheckSpawned(late, process)))
      case RefuseCheck => if !owner.Uncertain? then None else Some(e.(owner := CheckRefused(late)))
      case RecordRoot =>
        if !owner.CheckSpawned? then None
        else Some(Write(e, InventoryOf(e, [owner.child]), CheckReceipted(late, owner.child), invalid))
      case ClearLaunch =>
        if !owner.CheckReceipted? then None else Some(WithMarker(e, false, CheckLaunched(late, owner.child)))
      case Reinventory =>
        if !owner.CheckLaunched? then None
        else Some(Write(e, InventoryOf(e, []), CheckOwned(late, owner.child), invalid))
      case CheckExit(outcome, clean) =>
        if !owner.CheckOwned? || (clean && owner.child in e.alive) then None
        else Some(e.(expired := if outcome == Expired then e.expired + {Generation(e)} else e.expired,
                     owner := ExitRecorded(late, owner.child, outcome, clean)))
      case InventoryExit =>
        if !owner.ExitRecorded? then None
        else Some(Write(e, InventoryOf(e, []), Inventoried(late, owner.child, owner.outcome, owner.clean), invalid))
      case ClearExit =>
        if !owner.Inventoried? then None else Some(WithMarker(e, false, Cleared(late, owner.outcome, owner.clean)))
      case ConfirmExit =>
        if !owner.Cleared? then None
        else if owner.clean
        then Some(Write(e, KEEP.(cleanup := Some(Cleanup.Confirmed)), AfterCheck(late, owner.outcome, true), invalid))
        else Some(e.(owner := AfterCheck(late, owner.outcome, false)))
      case ClearRefusal => if !owner.CheckRefused? then None else Some(WithMarker(e, false, RefusalCleared(late)))
      case ConfirmRefusal(overdue) =>
        if !owner.RefusalCleared? then None
        else Some(Write(e, KEEP.(cleanup := Some(Cleanup.Confirmed)), AfterRefusal(late, overdue), invalid))
      case LoseCheck =>
        if owner.CheckSpawned? || owner.CheckOwned? then Some(e.(owner := Abandoned(late, ExitUnobservable))) else None
      case EndCollection(status, reason, placed) =>
        if !owner.Collecting? || !CollectionVerdict(late, status, reason)
           || !PlacementFits(late, status, reason, placed) then None
        else Some(e.(owner := Ending(status, reason, None),
                     promoted := if placed then e.promoted + {Generation(e)} else e.promoted))
      case FailWrite => Some(e.(owner := invalid, torn := e.torn || owner.MarkerSet?))
  }

  /** The launch marker is rewritten with the size of the inventory at that moment. */
  function WithMarker(e: Execution, pending: bool, next: Owner): Execution
    requires e.record.attempts != []
  {
    e.(marker := Some(Marker(Generation(e), pending, |Last(e.record).direct|)), owner := next)
  }

  function InventoryOf(e: Execution, more: seq<Identity>): Changes
    requires e.record.attempts != []
  {
    KEEP.(direct := Some(Last(e.record).direct + more), cleanup := Some(Unconfirmed))
  }

  predicate CollectionVerdict(late: bool, status: Status, reason: Option<Reason>) {
    if late then
      status == TimedOut && reason in {Some(CollectionComplete), Some(CollectionPartial), Some(CollectionIncomplete)}
    else
      || (status == Exited && (reason.None? || reason == Some(ResultInvalid)))
      || (status == TimedOut && reason == Some(CheckpointDeadlineExceeded))
  }

  /** Success needs the result file in its place; a handled failure may come after it was put there. */
  predicate PlacementFits(late: bool, status: Status, reason: Option<Reason>, placed: bool) {
    (late ==> !placed) && (!late && status == Exited && reason.None? ==> placed)
  }

  /** Recovering one execution on behalf of an owner that died. */
  function DoSweep(e: Execution, s: SweepStep): Option<Execution> {
    match s
    case Inspect(supervisorAlive, clean) =>
      if !e.owner.SweepLoaded? then None
      else if e.record.attempts == [] || (Resolved(Last(e.record)) && !PendingLaunch(e)) || supervisorAlive
      then Some(Release(e))
      else if clean && exists process :: process in Known(Last(e.record)) && process in e.alive then None
      else Some(e.(owner := SweepCleaned(Known(Last(e.record)) != [] && clean)))
    case ClearMarker =>
      if !(e.owner.SweepCleaned? && e.record.attempts != []) then None
      else
        var marker := MarkerAfterCleanup(e, e.owner.confirmed);
        Some(e.(marker := marker, owner := SweepMarked(e.owner.confirmed && !(marker.Some? && marker.value.pending))))
    case WriteOutcome =>
      if !(e.owner.SweepMarked? && e.record.attempts != []) then None
      else Some(Write(e, SweepOutcome(e, e.owner.settled), Free, Free))
  }

  /** A pending launch is repaired only by exactly one receipt that came after it. */
  function MarkerAfterCleanup(e: Execution, confirmed: bool): Option<Marker>
    requires e.record.attempts != []
  {
    if PendingLaunch(e) && confirmed && e.marker.value.generation == Generation(e)
       && |Last(e.record).direct| == e.marker.value.rootsBefore + 1
    then Some(Marker(Generation(e), false, |Last(e.record).direct|)) else e.marker
  }

  function SweepOutcome(e: Execution, settled: bool): Changes
    requires e.record.attempts != []
  {
    var attempt := Last(e.record);
    var cleanup := Some(if settled then Cleanup.Confirmed else Unconfirmed);
    if Terminal(attempt.status) then KEEP.(cleanup := cleanup)
    else if Generation(e) in e.expired
    then KEEP.(cleanup := cleanup, status := Some(TimedOut), reason := Some(CheckpointDeadlineExceeded))
    else if attempt.reason == Some(CollectionPending)
    then KEEP.(cleanup := cleanup, status := Some(TimedOut), reason := Some(CollectionIncomplete))
    else KEEP.(cleanup := cleanup, status := Some(Interrupted), reason := Some(ExitUnobservable))
  }

  /** Single-write operations of the tick, a waiter, and an operator. */
  function DoControl(e: Execution, s: ControlStep): Option<Execution> {
    match s
    case TickApprove(peersResolved, evidence, event) =>
      if event in e.events then None
      else
        var (verdict, intent) := R.AutoApprove(e.record, e.intent, peersResolved, evidence, event, R.MAX_GENERATIONS);
        Some(e.(intent := intent, events := e.events + {event},
                log := if verdict.reason == R.JustApproved then e.log + [WasApproved(intent.value.preview, R.Tick)]
                  else e.log))
    case WaiterValidate(event, evidence) =>
      if R.Validate(e.record, e.intent, event, evidence) == R.StateChanged
      then Some(e.(intent := R.Invalidate(e.intent, event))) else Some(e)
    case OperatorPrepare(mode, evidence, event) =>
      if event in e.events then None
      else
        var intent := R.Prepare(e.record, mode, event, evidence);
        if intent.None? then None else Some(e.(intent := intent, events := e.events + {event}))
    case OperatorApprove(preview, evidence) =>
      var intent := R.Approve(e.record, e.intent, preview, evidence);
      if intent.None? then None
      else Some(e.(intent := intent, log := e.log + [WasApproved(preview, R.Operator)]))
  }

  /** The effect of a step on the execution it belongs to. */
  function Local(e: Execution, s: Step): Option<Execution> {
    match s
    case AcquireDaemon(request) => if e.owner.Free? then Some(e.(owner := Loaded(request))) else None
    case AcquireSweep => if e.owner.Free? then Some(e.(owner := SweepLoaded)) else None
    case Client(client) => DoClient(e, client)
    case Collect(collect) => DoCollect(e, collect)
    case Sweep(sweep) => DoSweep(e, sweep)
    case Control(control) => if e.owner.Free? then DoControl(e, control) else None
    case ProcessExit(process) => if process in e.alive then Some(e.(alive := e.alive - {process})) else None
    case Crash => if e.owner.Free? then None else Some(Release(e))
  }

  // ----- the whole root -----

  type Root = map<ExecutionId, Execution>

  function Records(s: Root): map<ExecutionId, Record> {
    map id | id in s :: s[id].record
  }

  /** A worktree's kernel lock is held exactly while some owner on it is active. */
  predicate WorktreeFree(s: Root, worktree: Worktree) {
    forall id :: id in s && s[id].record.worktree == worktree ==> s[id].owner.Free?
  }

  /** What a step needs of the other executions. */
  predicate Allowed(s: Root, id: ExecutionId, step: Step)
    requires id in s
  {
    match step
    case AcquireDaemon(_) => WorktreeFree(s, s[id].record.worktree) && PeersResolved(Records(s), id)
    case AcquireSweep => WorktreeFree(s, s[id].record.worktree)
    case Client(AdmitNow(peersResolved)) => peersResolved == PeersResolved(Records(s), id)
    case Control(TickApprove(peersResolved, _, _)) =>
      WorktreeFree(s, s[id].record.worktree) && peersResolved == PeersResolved(Records(s), id)
    case Control(_) => WorktreeFree(s, s[id].record.worktree) && PeersResolved(Records(s), id)
    case _ => true
  }

  datatype Event =
    | Register(id: ExecutionId, worktree: Worktree, manifest: bool)
    | Act(id: ExecutionId, step: Step)

  function Next(s: Root, event: Event): Option<Root> {
    match event
    case Register(id, worktree, manifest) => if id in s then None else Some(s[id := Fresh(worktree, manifest)])
    case Act(id, step) =>
      if id !in s || !Allowed(s, id, step) then None
      else
        var after := Local(s[id], step);
        if after.None? then None else Some(s[id := after.value])
  }

  /** The root after a run, or nothing if some event was not possible when it came. */
  function Run(s: Root, events: seq<Event>): Option<Root>
    decreases |events|
  {
    if events == [] then Some(s)
    else
      var next := Next(s, events[0]);
      if next.None? then None else Run(next.value, events[1..])
  }

  /** The root a run reaches from an empty store. */
  ghost predicate Reachable(s: Root, events: seq<Event>) {
    Run(map[], events) == Some(s)
  }

  /** Runs compose. */
  lemma {:induction false} RunAppend(s: Root, events: seq<Event>, more: seq<Event>)
    requires Run(s, events).Some?
    ensures Run(s, events + more) == Run(Run(s, events).value, more)
    decreases |events|
  {
    if events == [] {
      assert events + more == more;
    } else {
      assert (events + more)[0] == events[0] && (events + more)[1..] == events[1..] + more;
      RunAppend(Next(s, events[0]).value, events[1..], more);
    }
  }
}
