/**
 * Recovery approvals bound to one attempt generation and one work snapshot.
 *
 * Each function gives the effect of one control-plane operation on the recovery
 * intent of one execution; the operation itself runs under the execution's locks.
 */
module Recovery {
  import opened Common
  import opened ExecutionRecords

  const MAX_GENERATIONS := 3
  const MAX_REISSUES := 3

  /** Digest of everything the snapshot reads from the worktree and the journal. */
  type Work = nat

  datatype Mode = Resume | RecoveryOnly
  datatype Approver = Operator | Tick
  datatype IntentStatus = Prepared | Approved | Used | Invalidated

  datatype Preview = Preview(event: EventId, generation: nat, mode: Mode, work: Work)

  datatype Intent = Intent(status: IntentStatus, approver: Approver, preview: Preview, reissues: nat)

  /** What the journal and worktree allow: nothing, old evidence only, or a snapshot. */
  datatype Evidence = EvidenceInvalid | WorktreeUnsafe | EvidenceLegacy(work: Work) | Readable(work: Work)

  function Snapshot(record: Record, mode: Mode, event: EventId, evidence: Evidence): Option<Preview> {
    if record.attempts == [] || !Resolved(Last(record)) then None
    else match evidence
      case Readable(work) => Some(Preview(event, Last(record).generation, mode, work))
      case EvidenceLegacy(work) =>
        if mode == RecoveryOnly then Some(Preview(event, Last(record).generation, mode, work)) else None
      case _ => None
  }

  // ----- operator path -----

  function Prepare(record: Record, mode: Mode, event: EventId, evidence: Evidence): Option<Intent> {
    var preview := Snapshot(record, mode, event, evidence);
    if preview.None? then None else Some(Intent(Prepared, Operator, preview.value, 0))
  }

  function Approve(record: Record, intent: Option<Intent>, preview: Preview, evidence: Evidence): Option<Intent> {
    if intent.None? || intent.value.status != Prepared || intent.value.preview != preview
       || Snapshot(record, preview.mode, preview.event, evidence) != Some(preview)
    then None
    else Some(Intent(Approved, Operator, preview, 0))
  }

  // ----- validation, consumption, invalidation -----

  datatype Validation = NotApproved | SnapshotFailed | StateChanged | Valid(preview: Preview)

  function Validate(record: Record, intent: Option<Intent>, event: EventId, evidence: Evidence): Validation {
    if intent.None? || intent.value.status != Approved || intent.value.preview.event != event then NotApproved
    else
      var preview := intent.value.preview;
      var current := Snapshot(record, preview.mode, event, evidence);
      if current.None? then SnapshotFailed
      else if current.value != preview then StateChanged
      else Valid(preview)
  }

  function Consume(intent: Intent): Intent {
    intent.(status := Used, reissues := if intent.approver == Operator then 0 else intent.reissues)
  }

  function Invalidate(intent: Option<Intent>, event: EventId): Option<Intent> {
    if intent.Some? && intent.value.status == Approved && intent.value.approver == Tick
       && intent.value.preview.event == event
    then Some(intent.value.(status := Invalidated))
    else intent
  }

  function RetractStale(intent: Option<Intent>, generation: nat): Option<Intent> {
    if intent.Some? && intent.value.status == Approved && intent.value.approver == Tick
       && intent.value.preview.generation == generation
    then Some(intent.value.(status := Invalidated))
    else intent
  }

  // ----- the tick's closed policy -----

  datatype VerdictReason =
    | JustApproved | AlreadyApproved | NoAttempt | OutcomeIneligible | CleanupNotConfirmed
    | GenerationExhausted | LegacyEvidence | InvalidEvidence | UnsafeWorktree | WorktreeBusy
    | ChangedTooOften | OperatorIntentPending

  datatype Verdict = Verdict(reason: VerdictReason, event: Option<EventId>) {
    predicate Approves() { reason == JustApproved || reason == AlreadyApproved }
  }

  predicate Eligible(attempt: Attempt) {
    attempt.status in {TimedOut, Interrupted} || (attempt.status == Exited && attempt.reason == Some(ResultInvalid))
  }

  predicate Carried(record: Record, event: EventId) {
    exists i :: 0 <= i < |record.attempts| && record.attempts[i].event == Some(event)
  }

  /** An approval of this generation that is still good for the work seen now. */
  predicate StillGood(record: Record, intent: Option<Intent>, evidence: Evidence) {
    && intent.Some?
    && intent.value.status == Approved
    && intent.value.approver == Tick
    && record.attempts != []
    && intent.value.preview.generation == Last(record).generation
    && !Carried(record, intent.value.preview.event)
    && Snapshot(record, Resume, intent.value.preview.event, evidence) == Some(intent.value.preview)
  }

  predicate OperatorOpen(intent: Option<Intent>) {
    intent.Some? && intent.value.approver == Operator && intent.value.status in {Prepared, Approved}
  }

  /** `event` is the fresh random identifier the tick would use. */
  function AutoApprove(record: Record, intent: Option<Intent>, peersResolved: bool, evidence: Evidence,
                       event: EventId, maxGenerations: nat): (Verdict, Option<Intent>)
  {
    if record.attempts == [] then (Verdict(NoAttempt, None), intent)
    else
      var attempt := Last(record);
      var retracted := RetractStale(intent, attempt.generation);
      if !peersResolved then (Verdict(WorktreeBusy, None), intent)
      else if !Eligible(attempt) then (Verdict(OutcomeIneligible, None), retracted)
      else if attempt.cleanup != Confirmed then (Verdict(CleanupNotConfirmed, None), retracted)
      else if attempt.generation >= maxGenerations then (Verdict(GenerationExhausted, None), retracted)
      else if OperatorOpen(intent) then (Verdict(OperatorIntentPending, None), intent)
      else if StillGood(record, intent, evidence)
      then (Verdict(AlreadyApproved, Some(intent.value.preview.event)), intent)
      else match evidence
        case EvidenceInvalid => (Verdict(InvalidEvidence, None), retracted)
        case WorktreeUnsafe => (Verdict(UnsafeWorktree, None), retracted)
        case EvidenceLegacy(_) => (Verdict(LegacyEvidence, None), retracted)
        case Readable(work) =>
          var sameGeneration := intent.Some? && intent.value.approver == Tick
            && intent.value.preview.generation == attempt.generation;
          var reissues := if sameGeneration then intent.value.reissues + 1 else 0;
          if reissues > MAX_REISSUES then (Verdict(ChangedTooOften, None), retracted)
          else (Verdict(JustApproved, Some(event)),
                Some(Intent(Approved, Tick, Preview(event, attempt.generation, Resume, work), reissues)))
  }

  /** The event a waiter may start a daemon with, if the tick left one open. */
  function PendingAutoRecovery(record: Record, intent: Option<Intent>, maxGenerations: nat): Option<EventId> {
    if intent.None? || intent.value.status != Approved || intent.value.approver != Tick then None
    else if record.attempts == [] then None
    else
      var attempt := Last(record);
      if attempt.status !in {TimedOut, Interrupted} then None
      else if attempt.cleanup != Confirmed then None
      else if attempt.generation >= maxGenerations then None
      else if intent.value.preview.generation != attempt.generation then None
      else if Carried(record, intent.value.preview.event) then None
      else Some(intent.value.preview.event)
  }

  // ----- properties -----

  /**
   * An approval names the last attempt's generation and exactly the work seen
   * now, and an operator's open intent is never overwritten.
   */
  lemma ApprovalIsBound(record: Record, intent: Option<Intent>, peers: bool, evidence: Evidence, event: EventId,
                        max: nat)
    requires ValidRecord(record)
    ensures var (verdict, after) := AutoApprove(record, intent, peers, evidence, event, max);
      && (verdict.Approves() ==>
            && peers && record.attempts != [] && Resolved(Last(record)) && |record.attempts| < max
            && evidence.Readable? && !OperatorOpen(intent)
            && after.Some? && after.value.status == Approved && after.value.approver == Tick
            && verdict.event == Some(after.value.preview.event)
            && after.value.preview == Preview(verdict.event.value, |record.attempts|, Resume, evidence.work))
      && (OperatorOpen(intent) ==> after == intent && !verdict.Approves())
  {
  }

  /**
   * The two halves of automatic recovery agree on timed-out and interrupted
   * attempts: what the tick approves is what a waiter is handed.
   * They disagree exactly on an exited attempt with an invalid result, which
   * the tick approves and no waiter is ever handed.
   */
  lemma ApprovedIsHandedOut(record: Record, intent: Option<Intent>, peers: bool, evidence: Evidence, event: EventId,
                            max: nat)
    requires ValidRecord(record) && !Carried(record, event)
    requires AutoApprove(record, intent, peers, evidence, event, max).0.Approves()
    ensures var (verdict, after) := AutoApprove(record, intent, peers, evidence, event, max);
      && (PendingAutoRecovery(record, after, max) == verdict.event <==> Last(record).status in {TimedOut, Interrupted})
      && (PendingAutoRecovery(record, after, max) == None <==> Last(record).status == Exited)
  {
  }

  /** Such an attempt: approved by the tick, and no intent whatever is handed out while it is the last one. */
  lemma ApprovedAndNeverHandedOut(event: EventId, work: Work) returns (record: Record)
    ensures ValidRecord(record) && !Carried(record, event)
    ensures AutoApprove(record, None, true, Readable(work), event, MAX_GENERATIONS).0 ==
      Verdict(JustApproved, Some(event))
    ensures forall intent :: PendingAutoRecovery(record, intent, MAX_GENERATIONS) == None
  {
    var attempt := NewAttempt(1, None).(status := Exited, cleanup := Confirmed, reason := Some(ResultInvalid),
                                        exitCode := Some(0));
    record := Record(0, false, [attempt], None);
    assert Last(record) == attempt;
  }

  /** What a waiter is handed validates unless the work moved on, and then it is invalidated. */
  lemma HandedOutIsOpen(record: Record, intent: Option<Intent>, evidence: Evidence, max: nat)
    requires ValidRecord(record) && PendingAutoRecovery(record, intent, max).Some?
    requires intent.value.preview.mode == Resume
    ensures var event := PendingAutoRecovery(record, intent, max).value;
      && Validate(record, intent, event, evidence) != NotApproved
      && (Validate(record, intent, event, evidence).Valid? <==> StillGood(record, intent, evidence))
      && PendingAutoRecovery(record, Invalidate(intent, event), max) == None
      && (Validate(record, intent, event, evidence).Valid? ==>
            PendingAutoRecovery(record, Some(Consume(intent.value)), max) == None)
  {
  }

  /**
   * A refusal closes any stale approval of the attempt it refuses, except when
   * nothing could be read yet or the intent belongs to an operator.
   */
  lemma RefusalClosesApproval(record: Record, intent: Option<Intent>, peers: bool, evidence: Evidence, event: EventId,
                              max: nat)
    requires ValidRecord(record)
    requires !AutoApprove(record, intent, peers, evidence, event, max).0.Approves()
    requires AutoApprove(record, intent, peers, evidence, event, max).0.reason !in {NoAttempt, WorktreeBusy}
    ensures PendingAutoRecovery(record, AutoApprove(record, intent, peers, evidence, event, max).1, max) == None
  {
  }

  /** The policy either leaves the intent alone, invalidates it, or writes one fresh approval. */
  lemma PolicyEffect(record: Record, intent: Option<Intent>, peers: bool, evidence: Evidence, event: EventId, max: nat)
    requires ValidRecord(record)
    ensures var (verdict, after) := AutoApprove(record, intent, peers, evidence, event, max);
      if verdict.reason == JustApproved then
        && evidence.Readable? && 1 <= |record.attempts| < max && !OperatorOpen(intent)
        && after.Some? && after.value.status == Approved && after.value.approver == Tick
        && after.value.preview == Preview(event, |record.attempts|, Resume, evidence.work)
        && after.value.reissues <= MAX_REISSUES
        && (after.value.reissues > 0 ==>
              && intent.Some? && intent.value.preview.generation == |record.attempts|
              && intent.value.reissues + 1 == after.value.reissues)
        && (intent.Some? && intent.value.approver == Tick && intent.value.preview.generation == |record.attempts| ==>
              after.value.reissues == intent.value.reissues + 1)
      else after == intent || (intent.Some? && after == Some(intent.value.(status := Invalidated)))
  {
  }
}
