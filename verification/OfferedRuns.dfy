/**
 * Result files over runs of the step system: a promoted result belongs to an attempt whose
 * client exited with zero, and a handled failure after the promotion leaves a phase that is
 * accepted and offered for another attempt at once.
 */
module OfferedRuns {
  import opened Common
  import opened ProcessCleanup
  import opened ExecutionRecords
  import opened Supervision
  import opened Ownership
  import opened TornWindow
  import C = CommitGraph
  import A = PhaseAuthority
  import R = Recovery

  // ----- every promoted result comes after a zero exit -----

  /** Collection before the deadline follows a zero exit, and only it promotes. */
  ghost predicate Graded(e: Execution) {
    && (forall g :: g in e.promoted ==> 1 <= g <= |e.record.attempts| && e.record.attempts[g - 1].exitCode == Some(0))
    && (IsCollecting(e.owner) && !e.owner.late ==> e.record.attempts != [] && Last(e.record).exitCode == Some(0))
  }

  /** Where the history of the attempts is kept, so are their exit codes. */
  lemma HistoryKeepsGraded(e: Execution, after: Execution)
    requires Graded(e) && HistoryKept(e.record, after.record) && after.promoted == e.promoted
    requires IsCollecting(after.owner) && !after.owner.late ==>
      after.record.attempts != [] && Last(after.record).exitCode == Some(0)
    ensures Graded(after)
  {
    forall g | g in after.promoted
      ensures 1 <= g <= |after.record.attempts| && after.record.attempts[g - 1].exitCode == Some(0)
    {
      assert EvidenceKept(e.record.attempts[g - 1], after.record.attempts[g - 1]);
    }
  }

  /** One write, whatever it changes, that does not enter collection. */
  lemma WriteKeepsGraded(e: Execution, c: Changes, next: Owner, failed: Owner)
    requires ValidRecord(e.record) && Graded(e) && e.record.attempts != [] && !IsCollecting(failed)
    requires IsCollecting(next) && !next.late ==> IsCollecting(e.owner) && !e.owner.late
    ensures Graded(Write(e, c, next, failed))
  {
    var after := Write(e, c, next, failed);
    UpdateKeepsHistory(e.record, Generation(e), c);
    var n := |e.record.attempts| - 1;
    assert HistoryKept(e.record, after.record) && |after.record.attempts| == n + 1;
    assert EvidenceKept(e.record.attempts[n], after.record.attempts[n]);
    HistoryKeepsGraded(e, after);
  }

  lemma ExitKeepsGraded(e: Execution, expired: bool, code: Option<int>, signal: Option<int>, clean: bool)
    requires ValidRecord(e.record) && Graded(e) && e.record.attempts != [] && e.owner.ClientOwned?
    ensures Graded(Write(e, ExitReceipt(e, e.owner.child, expired, code, signal, clean),
                         AfterClient(e, expired, code, clean), Free))
  {
    var c, next := ExitReceipt(e, e.owner.child, expired, code, signal, clean), AfterClient(e, expired, code, clean);
    var after := Write(e, c, next, Free);
    UpdateKeepsHistory(e.record, Generation(e), c);
    if after.owner == next && IsCollecting(next) && UpdateAttempt(e.record, Generation(e), c).Success? {
      assert Last(after.record) == Patched(Last(e.record), c);
    }
    assert HistoryKept(e.record, after.record);
    HistoryKeepsGraded(e, after);
  }

  lemma AdmissionKeepsGraded(e: Execution, event: Option<EventId>, peers: bool)
    requires ValidRecord(e.record) && Graded(e)
    ensures Graded(AdmitAttempt(e, event, peers))
  {
    AdmitKeepsHistory(e.record, event);
    if peers && Admit(e.record, event).Success? {
      HistoryKeepsGraded(e, AdmitAttempt(e, event, peers));
    }
  }

  lemma AuthorizationKeepsGraded(e: Execution, preview: R.Preview)
    requires Graded(e)
    ensures Graded(AuthorizeEvent(e, preview))
  {
  }

  lemma ConsumeKeepsGraded(e: Execution, event: EventId, evidence: R.Evidence)
    requires Graded(e)
    ensures Graded(ConsumeEvent(e, event, evidence))
  {
  }

  /** A daemon that is not collecting keeps the codes by keeping the history. */
  lemma ClientKeepsGraded(e: Execution, s: ClientStep)
    requires ValidRecord(e.record) && Graded(e) && DoClient(e, s).Some?
    ensures Graded(DoClient(e, s).value)
  {
    match s
    case RecordSupervisor(identity) => WriteKeepsGraded(e, KEEP.(supervisor := Some(identity)), Registered, Free);
    case RecordLaunch(started, deadline) =>
      WriteKeepsGraded(e, LaunchReceipt(e.owner.child, started, deadline), ClientLaunched(e.owner.child), LOST_CLIENT);
    case RecordRoots =>
      WriteKeepsGraded(e, KEEP.(direct := Some([e.owner.child])), ClientOwned(e.owner.child), LOST_CLIENT);
    case ClientExit(expired, code, signal, clean) => ExitKeepsGraded(e, expired, code, signal, clean);
    case Finish =>
      WriteKeepsGraded(e, KEEP.(status := Some(e.owner.status), reason := e.owner.reason, cleanup := e.owner.cleanup),
                       Free, Free);
    case AdmitNow(peers) => AdmissionKeepsGraded(e, e.owner.event, peers);
    case Authorize => AuthorizationKeepsGraded(e, e.owner.preview);
    case Consume(evidence) => ConsumeKeepsGraded(e, e.owner.request.value, evidence);
    case _ =>
  }

  lemma CollectKeepsGraded(e: Execution, s: CollectStep)
    requires ValidRecord(e.record) && Graded(e) && DoCollect(e, s).Some?
    ensures Graded(DoCollect(e, s).value)
  {
    var owner, late := e.owner, e.owner.late;
    var invalid := Abandoned(late, ResultInvalid);
    match s
    case MarkUncertain => WriteKeepsGraded(e, KEEP.(cleanup := Some(Unconfirmed)), Uncertain(late), invalid);
    case RecordRoot => WriteKeepsGraded(e, InventoryOf(e, [owner.child]), CheckReceipted(late, owner.child), invalid);
    case Reinventory => WriteKeepsGraded(e, InventoryOf(e, []), CheckOwned(late, owner.child), invalid);
    case InventoryExit =>
      WriteKeepsGraded(e, InventoryOf(e, []), Inventoried(late, owner.child, owner.outcome, owner.clean), invalid);
    case ConfirmExit =>
      WriteKeepsGraded(e, KEEP.(cleanup := Some(Cleanup.Confirmed)), AfterCheck(late, owner.outcome, true), invalid);
    case ConfirmRefusal(overdue) =>
      WriteKeepsGraded(e, KEEP.(cleanup := Some(Cleanup.Confirmed)), AfterRefusal(late, overdue), invalid);
    case _ =>
  }

  lemma StepKeepsGraded(e: Execution, step: Step)
    requires ValidRecord(e.record) && Graded(e) && Local(e, step).Some?
    ensures Graded(Local(e, step).value)
  {
    match step
    case Client(s) => ClientKeepsGraded(e, s);
    case Collect(s) => CollectKeepsGraded(e, s);
    case Sweep(s) => if s.WriteOutcome? { WriteKeepsGraded(e, SweepOutcome(e, e.owner.settled), Free, Free); }
    case _ =>
  }

  lemma {:induction false} RunKeepsGraded(s: Root, events: seq<Event>)
    requires RootSound(s) && Run(s, events).Some? && forall id :: id in s ==> Graded(s[id])
    ensures forall id :: id in Run(s, events).value ==> Graded(Run(s, events).value[id])
    decreases |events|
  {
    if events != [] {
      NextSound(s, events[0]);
      if events[0].Act? {
        assert Sound(s[events[0].id]);
        StepKeepsGraded(s[events[0].id], events[0].step);
      }
      RunKeepsGraded(Next(s, events[0]).value, events[1..]);
    }
  }

  /** In every reachable state a result file in its place belongs to an attempt that exited with zero. */
  lemma PromotedExitedWithZero(s: Root, events: seq<Event>, id: ExecutionId, generation: nat)
    requires Reachable(s, events) && id in s && generation in s[id].promoted
    ensures 1 <= generation <= Generation(s[id]) && s[id].record.attempts[generation - 1].exitCode == Some(0)
  {
    RunKeepsGraded(map[], events);
    assert Graded(s[id]);
  }

  // ----- a run that is accepted and offered -----

  /** The result file was put in its place, and making it durable failed. */
  const UNSYNCED := EndCollection(Exited, Some(ResultInvalid), true)

  function Unsynced(): Execution {
    First(9).(owner := Ending(Exited, Some(ResultInvalid), None), promoted := {1})
  }

  function Offered(): Execution {
    Unsynced().(owner := Free, record := Record(0, false, [AttemptAt(12)], None))
  }

  lemma OfferedSteps()
    ensures Local(First(9), Collect(UNSYNCED)) == Some(Unsynced())
    ensures Local(Unsynced(), Client(Finish)) == Some(Offered())
  {
    assert First(9).promoted + {Generation(First(9))} == {1};
    OnlyAttemptWritten(Unsynced(), KEEP.(status := Some(Exited), reason := Some(ResultInvalid), cleanup := None),
                       Free, Free);
  }

  /** The phase of that execution, its one result file promoted at the base. */
  function OfferedPhase(record: Record): A.Execution {
    A.Execution(record, None, "tick", "k", "plan", A.Contract(A.PhaseResult, C.Commit(0), "todo"), true,
                map[1 := A.Promoted(1, "tick", "todo", "k", "success", C.Commit(0))], None, None, true)
  }

  /**
   * A run ends with an execution at rest whose result file is in its place and whose attempt is
   * recorded as an invalid result: its phase is accepted, and offered for another attempt.
   */
  lemma AcceptedAndOfferedIsReached() returns (s: Root, events: seq<Event>, run: A.Run, h: C.History)
    ensures Reachable(s, events) && 0 in s && s[0].owner.Free? && s[0].promoted == {1}
    ensures OfferedPhase(s[0].record).results.Keys == s[0].promoted
    ensures A.Authorized(run, h, "k", OfferedPhase(s[0].record)) && A.Resumable(Last(s[0].record))
  {
    h := map[C.Commit(0) := []];
    run := A.Run("tick", "todo", "plan", 0, "branch", [], C.Commit(0), false);
    OfferedSteps();
    var before := FirstRuns(9);
    var t := Both(9, 0)[0 := Unsynced()];
    s := t[0 := Offered()];
    ActsOn(Both(9, 0), 0, Collect(UNSYNCED), Unsynced());
    Extend(before, Both(9, 0), Act(0, Collect(UNSYNCED)), t);
    ActsOn(t, 0, Client(Finish), Offered());
    Extend(before + [Act(0, Collect(UNSYNCED))], t, Act(0, Client(Finish)), s);
    events := before + [Act(0, Collect(UNSYNCED))] + [Act(0, Client(Finish))];
    assert Last(s[0].record) == AttemptAt(12);
    assert C.Ancestor(h, C.Commit(0), C.Commit(0));
  }
}
