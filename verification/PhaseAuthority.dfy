/**
 * When a finished phase counts: its last attempt ended well, its promoted result is the one
 * that attempt left, and its checkpoints and commits match (authority_result.py). The heads of
 * counted phases must form one unbroken chain from the registered base.
 */
module PhaseAuthority {
  import opened Common
  import opened CommitGraph
  import opened ExecutionRecords
  import opened Recovery
  import opened PhaseDefinitions
  import Journal

  /** The run, as pinned at registration. */
  datatype Run = Run(tick: string, todo: string, plan: string, place: Worktree, branch: string,
                     phases: seq<Phase>, base: Commit, manifest: bool)

  datatype ResultKind = PhaseResult | WorkerResult

  /** What a promoted result file says. Only phase results name their execution. */
  datatype Promoted = Promoted(generation: nat, tick: string, todo: string, step: string, verdict: string, head: Commit)

  datatype Contract = Contract(kind: ResultKind, base: Commit, todo: string)

  /** One phase's durable execution: its record, its recovery intent and its promoted results. */
  datatype Execution = Execution(
    record: Record, intent: Option<Intent>,
    tick: string, phase: string, plan: string, contract: Contract,
    registrationValid: bool,
    results: map<nat, Promoted>,
    journal: Option<Journal.Progress>, taskCount: Option<nat>,
    topologyHolds: bool)

  predicate Succeeded(a: Attempt) {
    a.status == Exited && a.exitCode == Some(0) && a.exitSignal == None && a.cleanup == Confirmed
  }

  /** The result file of the last attempt, where one can be read. */
  function ResultOf(e: Execution): Option<Promoted> {
    if e.record.attempts != [] && Last(e.record).generation in e.results
    then Some(e.results[Last(e.record).generation]) else None
  }

  predicate CheckpointsComplete(e: Execution, head: Commit, generation: nat) {
    && e.journal.Some?
    && (e.taskCount.Some? ==>
          (&& |e.journal.value.accepted| == e.taskCount.value
           && e.journal.value.accepted != []
           && e.journal.value.accepted[|e.journal.value.accepted| - 1].claim.commit == head
           && forall x :: x in e.journal.value.accepted ==> x.claim.generation <= generation))
  }

  /** The supervisor's evidence for one phase, at the generation that ran last. */
  predicate Authorized(run: Run, h: History, key: string, e: Execution) {
    && e.registrationValid
    && e.tick == run.tick && e.phase == key && e.plan == run.plan
    && e.record.worktree == run.place && e.contract.todo == run.todo
    && e.record.attempts != [] && Succeeded(Last(e.record))
    && ResultOf(e).Some?
    && var r := ResultOf(e).value;
       match e.contract.kind
       case PhaseResult =>
         && r == Promoted(Last(e.record).generation, run.tick, run.todo, key, "success", r.head)
         && Ancestor(h, e.contract.base, r.head)
       case WorkerResult => CheckpointsComplete(e, r.head, Last(e.record).generation) && e.topologyHolds
  }

  predicate Resumable(a: Attempt) {
    && a.cleanup == Confirmed
    && (|| a.status in {TimedOut, Interrupted, Blocked}
        || (a.status == Exited && a.reason == Some(ResultInvalid)))
  }

  /**
   * A phase that is accepted is offered for another attempt as well exactly when its attempt
   * was recorded as an invalid result; acceptance never looks at the reason.
   */
  lemma AcceptedIsOfferedExactly(run: Run, h: History, key: string, e: Execution)
    requires Authorized(run, h, key, e)
    ensures Resumable(Last(e.record)) <==> Last(e.record).reason == Some(ResultInvalid)
  {
  }

  /** The head after these phases, if every one of them counts and starts where the last one ended. */
  function ChainHead(run: Run, h: History, executions: map<string, Execution>, phases: seq<Phase>): Option<Commit> {
    if phases == [] then Some(run.base)
    else
      var n := |phases| - 1;
      var before := ChainHead(run, h, executions, phases[..n]);
      var key := phases[n].key;
      if before.Some? && key in executions && Authorized(run, h, key, executions[key])
         && executions[key].contract.base == before.value
      then Some(ResultOf(executions[key]).value.head)
      else None
  }

  lemma {:induction false} ChainCountsEveryPhase(run: Run, h: History, executions: map<string, Execution>,
                                                 phases: seq<Phase>, i: nat)
    requires i < |phases| && ChainHead(run, h, executions, phases).Some?
    ensures phases[i].key in executions && Authorized(run, h, phases[i].key, executions[phases[i].key])
    ensures ChainHead(run, h, executions, phases[..i]) == Some(executions[phases[i].key].contract.base)
  {
    var n := |phases| - 1;
    if i < n {
      ChainCountsEveryPhase(run, h, executions, phases[..n], i);
      assert phases[..n][..i] == phases[..i];
    }
  }

  lemma {:induction false} ChainBreaksForGood(run: Run, h: History, executions: map<string, Execution>,
                                              phases: seq<Phase>, i: nat)
    requires i <= |phases| && ChainHead(run, h, executions, phases[..i]).None?
    ensures ChainHead(run, h, executions, phases).None?
  {
    if i < |phases| {
      assert phases[..|phases| - 1][..i] == phases[..i];
      ChainBreaksForGood(run, h, executions, phases[..|phases| - 1], i);
    } else {
      assert phases[..i] == phases;
    }
  }

  /** For phase results the chain is a path of the commit graph: every counted head descends from the base. */
  lemma {:induction false} PhaseHeadsDescend(run: Run, h: History, executions: map<string, Execution>,
                                             phases: seq<Phase>)
    requires run.base in h && ChainHead(run, h, executions, phases).Some?
    requires forall p :: p in phases && p.key in executions ==> executions[p.key].contract.kind == PhaseResult
    ensures Ancestor(h, run.base, ChainHead(run, h, executions, phases).value)
  {
    if phases != [] {
      var n := |phases| - 1;
      var e := executions[phases[n].key];
      assert phases[n] in phases;
      PhaseHeadsDescend(run, h, executions, phases[..n]);
      AncestorExtends(h, run.base, e.contract.base, ResultOf(e).value.head);
    } else {
      assert Ancestor(h, run.base, run.base);
    }
  }

  function StopIndex(workers: seq<Phase>, stop: Option<string>): (n: nat)
    ensures n <= |workers|
    ensures forall i :: 0 <= i < n ==> stop != Some(workers[i].key)
    ensures n < |workers| ==> stop == Some(workers[n].key)
  {
    if workers == [] || stop == Some(workers[0].key) then 0 else 1 + StopIndex(workers[1..], stop)
  }

  /** The workers before the one named, or all of them. */
  function Before(workers: seq<Phase>, stop: Option<string>): (r: seq<Phase>)
    ensures r <= workers
  {
    workers[..StopIndex(workers, stop)]
  }

  predicate Counts(run: Run, h: History, executions: map<string, Execution>, key: string, from: Commit) {
    && key in executions
    && Authorized(run, h, key, executions[key])
    && executions[key].contract.base == from
  }

  lemma ChainStep(run: Run, h: History, executions: map<string, Execution>, workers: seq<Phase>, i: nat, from: Commit)
    requires i < |workers| && ChainHead(run, h, executions, workers[..i]) == Some(from)
    ensures ChainHead(run, h, executions, workers[..i + 1]) ==
      if Counts(run, h, executions, workers[i].key, from) then Some(ResultOf(executions[workers[i].key]).value.head)
      else None
  {
    assert workers[..i + 1][..i] == workers[..i];
  }

  lemma ChainStops(run: Run, h: History, executions: map<string, Execution>, workers: seq<Phase>, i: nat, n: nat,
                   from: Commit)
    requires i < n <= |workers| && ChainHead(run, h, executions, workers[..i]) == Some(from)
    requires !Counts(run, h, executions, workers[i].key, from)
    ensures ChainHead(run, h, executions, workers[..n]).None?
  {
    ChainStep(run, h, executions, workers, i, from);
    assert workers[..n][..i + 1] == workers[..i + 1];
    ChainBreaksForGood(run, h, executions, workers[..n], i + 1);
  }

  /** Proves every entry and result of the phases before `stop` again. */
  method ValidatedPredecessorHead(run: Run, h: History, executions: map<string, Execution>, stop: Option<string>)
    returns (head: Option<Commit>)
    ensures head == ChainHead(run, h, executions, Before(Workers(run.phases), stop))
  {
    var workers := WorkerPhases(run.phases);
    ghost var end := StopIndex(workers, stop);
    var current := run.base;
    for i := 0 to |workers|
      invariant i <= end && ChainHead(run, h, executions, workers[..i]) == Some(current)
    {
      var key := workers[i].key;
      if stop == Some(key) {
        return Some(current);
      }
      ChainStep(run, h, executions, workers, i, current);
      if !Counts(run, h, executions, key, current) {
        ChainStops(run, h, executions, workers, i, end, current);
        return None;
      }
      current := ResultOf(executions[key]).value.head;
    }
    head := Some(current);
  }

  /** Delivery goes ahead only from the head that the phases before it prove now. */
  method RequireAcceptedReview(run: Run, h: History, executions: map<string, Execution>, accepted: Commit)
    returns (ok: bool)
    ensures var stop := RoleKey(run.phases, DELIVERY);
      ok <==>
        ChainHead(run, h, executions, Before(Workers(run.phases), if stop == [] then None else Some(stop[0]))) ==
          Some(accepted)
  {
    var stop := RoleKey(run.phases, DELIVERY);
    var head := ValidatedPredecessorHead(run, h, executions, if stop == [] then None else Some(stop[0]));
    ok := head == Some(accepted);
  }
}
