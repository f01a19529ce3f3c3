/**
 * Durable execution records and the fail-closed store over one root.
 *
 * The functions give the exact effect of each store operation on one record;
 * the class performs the operations on the record map under the kernel locks.
 */
module ExecutionRecords {
  import opened Common
  import opened ProcessCleanup

  // Identifiers are interned: only their equality matters here.
  type ExecutionId = nat
  type Worktree = nat
  type EventId = nat

  const MAX_ROOTS := 2048

  datatype Status =
    | Admitted | Running | RunningDetached | CleanupUnconfirmed | LockUnconfirmed
    | Exited | TimedOut | Interrupted | Blocked

  datatype Cleanup = Pending | Confirmed | Unconfirmed

  datatype Reason =
    | ClientNotLaunched | ExitUnobservable | ResultInvalid | CheckpointDeadlineExceeded
    | CollectionPending | CollectionComplete | CollectionPartial | CollectionIncomplete

  datatype Attempt = Attempt(
    generation: nat,
    status: Status,
    cleanup: Cleanup,
    reason: Option<Reason>,
    supervisor: Option<Identity>,
    client: Option<Identity>,
    started: Option<int>,
    deadline: Option<int>,
    exitCode: Option<int>,
    exitSignal: Option<int>,
    event: Option<EventId>,
    direct: seq<Identity>)

  datatype Approval = Approval(generation: nat, event: EventId)

  datatype Record = Record(
    worktree: Worktree,
    manifest: bool,
    attempts: seq<Attempt>,
    approved: Option<Approval>)

  datatype ExecutionError =
    | NoRecord | LockBusy | PeerUnresolved | RetryUnauthorized | NoPriorAttempt
    | StaleAuthorization | EventAlreadyConsumed | StaleAttempt | TerminalImmutable
    | EvidenceImmutable | AppendOnly | InvalidRecord

  predicate Terminal(status: Status) {
    status in {Exited, TimedOut, Interrupted, Blocked}
  }

  /** Nothing of the attempt can still be running, as far as the record says. */
  predicate Resolved(attempt: Attempt) {
    Terminal(attempt.status) && attempt.cleanup == Confirmed
  }

  function Last(record: Record): Attempt
    requires record.attempts != []
  {
    record.attempts[|record.attempts| - 1]
  }

  predicate Unresolved(record: Record) {
    record.attempts != [] && !Resolved(Last(record))
  }

  predicate HasUnresolvedAttempt(record: Record) {
    exists i :: 0 <= i < |record.attempts| && !Resolved(record.attempts[i])
  }

  // ----- the record schema -----

  predicate ValidAttempt(attempt: Attempt, index: nat) {
    && attempt.generation == index + 1
    && (attempt.started.Some? ==> attempt.started.value >= 0)
    && (attempt.deadline.Some? ==> attempt.deadline.value >= 0)
    && (attempt.started.Some? && attempt.deadline.Some? ==> attempt.started.value < attempt.deadline.value)
    && (attempt.exitSignal.Some? ==>
          && attempt.exitSignal.value > 0
          && (attempt.exitCode.Some? ==> attempt.exitCode.value == -attempt.exitSignal.value))
    && (attempt.status == Exited ==> attempt.exitCode.Some? || attempt.exitSignal.Some?)
    && |attempt.direct| <= MAX_ROOTS
    && Distinct(attempt.direct)
  }

  predicate ValidRecord(record: Record) {
    forall i :: 0 <= i < |record.attempts| ==> ValidAttempt(record.attempts[i], i)
  }

  method ValidateRecord(record: Record) returns (ok: bool)
    ensures ok <==> ValidRecord(record)
  {
    ok := true;
    for i := 0 to |record.attempts|
      invariant ok <==> forall k :: 0 <= k < i ==> ValidAttempt(record.attempts[k], k)
    {
      var attempt := record.attempts[i];
      var distinct := true;
      for j := 0 to |attempt.direct|
        invariant distinct <==> forall a, b :: 0 <= a < b < j ==> attempt.direct[a] != attempt.direct[b]
      {
        var novel := attempt.direct[j] !in attempt.direct[..j];
        assert novel <==> forall a :: 0 <= a < j ==> attempt.direct[a] != attempt.direct[j] by {
          assert forall a :: 0 <= a < j ==> attempt.direct[..j][a] == attempt.direct[a];
        }
        distinct := distinct && novel;
      }
      assert distinct <==> Distinct(attempt.direct);
      ok := ok
        && attempt.generation == i + 1
        && (attempt.started.Some? ==> attempt.started.value >= 0)
        && (attempt.deadline.Some? ==> attempt.deadline.value >= 0)
        && (attempt.started.Some? && attempt.deadline.Some? ==> attempt.started.value < attempt.deadline.value)
        && (attempt.exitSignal.Some? ==> attempt.exitSignal.value > 0)
        && (attempt.exitSignal.Some? && attempt.exitCode.Some? ==> attempt.exitCode.value == -attempt.exitSignal.value)
        && (attempt.status == Exited ==> attempt.exitCode.Some? || attempt.exitSignal.Some?)
        && |attempt.direct| <= MAX_ROOTS
        && distinct;
    }
  }

  // ----- effect of each operation on one record -----

  function NewAttempt(generation: nat, event: Option<EventId>): Attempt {
    Attempt(generation, Admitted, Pending, None, None, None, None, None, None, None, event, [])
  }

  /** The record after admission, and whether an attempt was created. */
  function Admit(record: Record, event: Option<EventId>): Result<(Record, bool), ExecutionError> {
    if record.attempts != [] && event.None? then
      Success((record, false))
    else if record.attempts != [] then
      var last := Last(record);
      if record.approved.None? || record.approved.value.generation != last.generation
         || record.approved.value.event != event.value || !Resolved(last) then
        Failure(RetryUnauthorized)
      else
        Success((record.(attempts := record.attempts + [NewAttempt(|record.attempts| + 1, event)], approved := None),
                 true))
    else if event.Some? then
      Failure(NoPriorAttempt)
    else
      Success((record.(attempts := [NewAttempt(1, None)], approved := None), true))
  }

  function AuthorizeRetry(record: Record, expected: nat, event: EventId): Result<Record, ExecutionError> {
    if record.attempts == [] || Last(record).generation != expected then
      Failure(StaleAuthorization)
    else if exists i :: 0 <= i < |record.attempts| && record.attempts[i].event == Some(event) then
      Failure(EventAlreadyConsumed)
    else
      Success(record.(approved := Some(Approval(expected, event))))
  }

  /** Requested field changes; `None` leaves a field alone. */
  datatype Changes = Changes(
    status: Option<Status>,
    cleanup: Option<Cleanup>,
    reason: Option<Reason>,
    supervisor: Option<Identity>,
    client: Option<Identity>,
    started: Option<int>,
    deadline: Option<int>,
    exit: Option<(Option<int>, Option<int>)>,
    direct: Option<seq<Identity>>)

  const KEEP := Changes(None, None, None, None, None, None, None, None, None)

  function Chosen<T>(change: Option<T>, current: T): T {
    if change.Some? then change.value else current
  }

  function ChosenSome<T>(change: Option<T>, current: Option<T>): Option<T> {
    if change.Some? then change else current
  }

  function Patched(attempt: Attempt, c: Changes): Attempt {
    attempt.(
      status := Chosen(c.status, attempt.status),
      cleanup := Chosen(c.cleanup, attempt.cleanup),
      reason := ChosenSome(c.reason, attempt.reason),
      supervisor := ChosenSome(c.supervisor, attempt.supervisor),
      client := ChosenSome(c.client, attempt.client),
      started := ChosenSome(c.started, attempt.started),
      deadline := ChosenSome(c.deadline, attempt.deadline),
      exitCode := if c.exit.Some? then c.exit.value.0 else attempt.exitCode,
      exitSignal := if c.exit.Some? then c.exit.value.1 else attempt.exitSignal,
      direct := Chosen(c.direct, attempt.direct))
  }

  predicate Overwrites<T(==)>(change: Option<T>, current: Option<T>) {
    change.Some? && current.Some? && change != current
  }

  function UpdateAttempt(record: Record, generation: nat, c: Changes): Result<Record, ExecutionError> {
    if record.attempts == [] || Last(record).generation != generation then
      Failure(StaleAttempt)
    else
      var attempt := Last(record);
      var updated := record.(attempts := record.attempts[|record.attempts| - 1 := Patched(attempt, c)]);
      if Terminal(attempt.status) && Chosen(c.status, attempt.status) != attempt.status then
        Failure(TerminalImmutable)
      else if Overwrites(c.supervisor, attempt.supervisor) || Overwrites(c.client, attempt.client)
              || Overwrites(c.started, attempt.started) || Overwrites(c.deadline, attempt.deadline)
              || (c.exit.Some? && attempt.exitCode.Some? && c.exit.value.0 != attempt.exitCode)
              || (c.exit.Some? && attempt.exitSignal.Some? && c.exit.value.1 != attempt.exitSignal) then
        Failure(EvidenceImmutable)
      else if c.direct.Some? && !(attempt.direct <= c.direct.value) then
        Failure(AppendOnly)
      else if !ValidRecord(updated) then
        Failure(InvalidRecord)
      else
        Success(updated)
  }

  // ----- what the operations keep -----

  /** Evidence collected for an attempt, once durable, survives every later write. */
  ghost predicate EvidenceKept(before: Attempt, after: Attempt) {
    && after.generation == before.generation
    && after.event == before.event
    && (Terminal(before.status) ==> after.status == before.status)
    && (before.supervisor.Some? ==> after.supervisor == before.supervisor)
    && (before.client.Some? ==> after.client == before.client)
    && (before.exitCode.Some? ==> after.exitCode == before.exitCode)
    && (before.exitSignal.Some? ==> after.exitSignal == before.exitSignal)
    && before.direct <= after.direct
  }

  /** Only the last attempt can change, and only by adding evidence. */
  ghost predicate HistoryKept(before: Record, after: Record) {
    && after.worktree == before.worktree
    && after.manifest == before.manifest
    && |before.attempts| <= |after.attempts|
    && (forall i :: 0 <= i < |before.attempts| ==> EvidenceKept(before.attempts[i], after.attempts[i]))
    && (forall i :: 0 <= i < |before.attempts| - 1 ==> after.attempts[i] == before.attempts[i])
  }

  lemma UpdateKeepsHistory(record: Record, generation: nat, c: Changes)
    requires ValidRecord(record)
    ensures var r := UpdateAttempt(record, generation, c);
      r.Success? ==> ValidRecord(r.value) && HistoryKept(record, r.value) && |r.value.attempts| == |record.attempts|
  {
  }

  /**
   * Admission appends exactly one unresolved attempt to a record with none, and
   * a retry only when its event is authorized for the generation just before it.
   */
  lemma AdmitKeepsHistory(record: Record, event: Option<EventId>)
    requires ValidRecord(record)
    ensures var r := Admit(record, event);
      && (r.Success? ==> ValidRecord(r.value.0) && HistoryKept(record, r.value.0))
      && (r.Success? && r.value.1 ==>
            && !Unresolved(record)
            && |r.value.0.attempts| == |record.attempts| + 1
            && r.value.0.approved.None?
            && Last(r.value.0) == NewAttempt(|record.attempts| + 1, event)
            && (event.Some? <==> record.attempts != [])
            && (event.Some? ==> record.approved == Some(Approval(|record.attempts|, event.value))))
      && (r.Success? && !r.value.1 ==> r.value.0 == record && record.attempts != [] && event.None?)
  {
  }

  /** An event is authorized only if no attempt of the execution carries it. */
  lemma AuthorizeIsFresh(record: Record, expected: nat, event: EventId)
    requires ValidRecord(record)
    ensures var r := AuthorizeRetry(record, expected, event);
      && (r.Success? <==>
            && record.attempts != [] && expected == |record.attempts|
            && forall i :: 0 <= i < |record.attempts| ==> record.attempts[i].event != Some(event))
      && (r.Success? ==>
            && ValidRecord(r.value) && HistoryKept(record, r.value)
            && r.value.attempts == record.attempts
            && r.value.approved == Some(Approval(expected, event)))
  {
  }

  // ----- the store -----

  /** A lock is anchored on an execution directory or on a worktree name. */
  datatype LockId = ExecutionLock(id: ExecutionId) | WorktreeLock(worktree: Worktree)

  /** No other execution registered on the same worktree has an unresolved attempt. */
  predicate PeersResolved(records: map<ExecutionId, Record>, id: ExecutionId)
    requires id in records
  {
    forall other :: other in records && other != id && records[other].worktree == records[id].worktree ==>
      !HasUnresolvedAttempt(records[other])
  }

  class ExecutionStore {
    var records: map<ExecutionId, Record>
    // Locks this thread holds, and locks held by any other owner.
    var held: set<LockId>
    var foreign: set<LockId>

    ghost predicate Valid()
      reads this
    {
      held !! foreign && forall id :: id in records ==> ValidRecord(records[id])
    }

    constructor ()
      ensures Valid() && records == map[] && held == {} && foreign == {}
    {
      records, held, foreign := map[], {}, {};
    }

    /** Nonblocking and reentrant: a lock this thread holds is simply used again. */
    function Available(id: ExecutionId): bool
      requires id in records
      reads this
    {
      ExecutionLock(id) !in foreign && WorktreeLock(records[id].worktree) !in foreign
    }

    /** Registering twice with the same pinned registration changes nothing; drift is refused. */
    method Register(id: ExecutionId, worktree: Worktree, manifest: bool) returns (r: Result<bool, ExecutionError>)
      requires Valid()
      modifies this`records
      ensures Valid()
      ensures r.Success? <==>
        && ExecutionLock(id) !in foreign
        && (id in old(records) ==> old(records[id]).worktree == worktree && old(records[id]).manifest == manifest)
      ensures records == if r == Success(true) then old(records)[id := Record(worktree, manifest, [], None)]
        else old(records)
      ensures r == Success(true) ==> id !in old(records)
      ensures r == Success(false) ==> id in old(records)
    {
      if ExecutionLock(id) in foreign { return Failure(LockBusy); }
      if id in records {
        if records[id].worktree != worktree || records[id].manifest != manifest { return Failure(InvalidRecord); }
        return Success(false);
      }
      records := records[id := Record(worktree, manifest, [], None)];
      r := Success(true);
    }

    method AssertWorktreePeersResolved(id: ExecutionId) returns (ok: bool)
      requires Valid() && id in records
      ensures ok <==> PeersResolved(records, id)
    {
      ok := true;
      var todo := records.Keys;
      while todo != {}
        invariant todo <= records.Keys
        invariant ok <==> forall other ::
          (other in records && other !in todo && other != id && records[other].worktree == records[id].worktree)
          ==> !HasUnresolvedAttempt(records[other])
        decreases |todo|
      {
        var other :| other in todo;
        todo := todo - {other};
        if other != id && records[other].worktree == records[id].worktree {
          var bad := false;
          for i := 0 to |records[other].attempts|
            invariant bad <==> exists k :: 0 <= k < i && !Resolved(records[other].attempts[k])
          {
            bad := bad || !Resolved(records[other].attempts[i]);
          }
          ok := ok && !bad;
        }
      }
    }

    method AdmitAttempt(id: ExecutionId, event: Option<EventId>) returns (r: Result<bool, ExecutionError>)
      requires Valid() && id in records
      modifies this`records
      ensures Valid()
      ensures r.Success? <==>
        old(Available(id)) && PeersResolved(old(records), id) && Admit(old(records[id]), event).Success?
      ensures r.Success? ==>
        && records == old(records)[id := Admit(old(records[id]), event).value.0]
        && r.value == Admit(old(records[id]), event).value.1
      ensures r.Failure? ==> records == old(records)
    {
      if !Available(id) { return Failure(LockBusy); }
      var peers := AssertWorktreePeersResolved(id);
      if !peers { return Failure(PeerUnresolved); }
      AdmitKeepsHistory(records[id], event);
      var next := Admit(records[id], event);
      if next.Failure? { return Failure(next.error); }
      records := records[id := next.value.0];
      r := Success(next.value.1);
    }

    method Authorize(id: ExecutionId, expected: nat, event: EventId) returns (r: Result<bool, ExecutionError>)
      requires Valid() && id in records
      modifies this`records
      ensures Valid()
      ensures r.Success? <==>
        ExecutionLock(id) !in foreign && AuthorizeRetry(old(records[id]), expected, event).Success?
      ensures r.Success? ==> records == old(records)[id := AuthorizeRetry(old(records[id]), expected, event).value]
      ensures r.Failure? ==> records == old(records)
    {
      if ExecutionLock(id) in foreign { return Failure(LockBusy); }
      AuthorizeIsFresh(records[id], expected, event);
      var next := AuthorizeRetry(records[id], expected, event);
      if next.Failure? { return Failure(next.error); }
      records := records[id := next.value];
      r := Success(true);
    }

    method Update(id: ExecutionId, generation: nat, c: Changes) returns (r: Result<Record, ExecutionError>)
      requires Valid() && id in records
      modifies this`records
      ensures Valid()
      ensures r == if ExecutionLock(id) in foreign then Failure(LockBusy)
        else UpdateAttempt(old(records[id]), generation, c)
      ensures records == if r.Success? then old(records)[id := r.value] else old(records)
    {
      if ExecutionLock(id) in foreign { return Failure(LockBusy); }
      UpdateKeepsHistory(records[id], generation, c);
      r := UpdateAttempt(records[id], generation, c);
      if r.Success? { records := records[id := r.value]; }
    }
  }
}
