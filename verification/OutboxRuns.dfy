/**
 * The outbox over whole runs, and the adapter and drain that use it (kanban.py).
 */
module OutboxRuns {
  import opened Common
  import opened Outbox

  datatype Op = Put(entry: Entry, hasTaskId: bool) | Take(project: Project)

  function Step(entries: seq<Entry>, op: Op, cap: int): seq<Entry> {
    match op
    case Put(e, hasTaskId) => Enqueued(entries, e, hasTaskId, cap)
    case Take(p) => Without(entries, p)
  }

  predicate Bounded(entries: seq<Entry>, cap: int) {
    OnePerProject(entries) && |entries| <= cap
  }

  lemma {:induction false} NotQueued(entries: seq<Entry>, p: Project)
    requires forall e :: e in entries ==> e.project != p
    ensures p !in Queue(entries)
  {
    if entries != [] {
      NotQueued(entries[1..], p);
    }
  }

  lemma DropFirst(entries: seq<Entry>)
    requires OnePerProject(entries) && entries != []
    ensures OnePerProject(entries[1..]) && Queue(entries[1..]) == Queue(entries) - {entries[0].project}
  {
    RestIsOne(entries);
    NotQueued(entries[1..], entries[0].project);
  }

  /** The project at the oldest position, where a step overflows the queue. */
  function Dropped(entries: seq<Entry>, op: Op, cap: int): Option<Project> {
    if op.Put? && entries != [] && Overflows(entries, op.entry, cap) then Some(entries[0].project) else None
  }

  /** The same step on the project map. */
  function MapStep(m: map<Project, Entry>, op: Op, dropped: Option<Project>): map<Project, Entry> {
    match op
    case Take(p) => m - {p}
    case Put(e, hasTaskId) => MapEnqueue(if dropped.Some? then m - {dropped.value} else m, e, hasTaskId)
  }

  lemma OverflowOnMap(entries: seq<Entry>, e: Entry, hasTaskId: bool, cap: int)
    requires cap > 0 && Bounded(entries, cap) && Overflows(entries, e, cap)
    ensures OnePerProject(Enqueued(entries, e, hasTaskId, cap))
    ensures Queue(Enqueued(entries, e, hasTaskId, cap)) == (Queue(entries) - {entries[0].project})[e.project := e]
  {
    OverflowDropsOldest(entries, e, hasTaskId, cap);
    QueueIsOfEntries(entries);
    DropFirst(entries);
    assert forall x :: x in entries[1..] ==> x in entries;
    AppendNew(entries[1..], e);
  }

  /** One step of the outbox is one step of the map. */
  lemma StepOnMap(entries: seq<Entry>, op: Op, cap: int)
    requires cap > 0 && Bounded(entries, cap)
    ensures Bounded(Step(entries, op, cap), cap)
    ensures Queue(Step(entries, op, cap)) == MapStep(Queue(entries), op, Dropped(entries, op, cap))
  {
    match op
    case Take(p) =>
      DequeueRefinesMap(entries, p);
    case Put(e, hasTaskId) =>
      OverflowDropsOldest(entries, e, hasTaskId, cap);
      if Overflows(entries, e, cap) {
        OverflowOnMap(entries, e, hasTaskId, cap);
      } else {
        CollapseRefinesMap(entries, e, hasTaskId);
      }
  }

  // ---- runs ------------------------------------------------------------------------------

  /** The queue after these operations, from an empty store. */
  function After(ops: seq<Op>, cap: int): seq<Entry> {
    if ops == [] then [] else Step(After(ops[..|ops| - 1], cap), ops[|ops| - 1], cap)
  }

  /** From an empty store there is at most one entry per project and never more than the cap. */
  lemma {:induction false} RunStaysBounded(ops: seq<Op>, cap: int)
    requires cap > 0
    ensures Bounded(After(ops, cap), cap)
  {
    if ops != [] {
      RunStaysBounded(ops[..|ops| - 1], cap);
      StepOnMap(After(ops[..|ops| - 1], cap), ops[|ops| - 1], cap);
    }
  }

  /** An entry leaves in exactly two ways: its project is dequeued, or it stands first when the queue overflows. */
  lemma LeavesByDequeueOrOverflow(entries: seq<Entry>, op: Op, cap: int, p: Project)
    requires cap > 0 && Bounded(entries, cap) && p in Queue(entries)
    ensures p !in Queue(Step(entries, op, cap)) <==>
      op == Take(p) || Dropped(entries, op, cap) == Some(p)
  {
    StepOnMap(entries, op, cap);
  }

  /**
   * The params a pending create ends up with: later operations of its project that know a task override
   * it, in order.
   */
  function FoldedIn(params: Params, ops: seq<Op>, p: Project): Params {
    if ops == [] then params
    else
      var before := FoldedIn(params, ops[..|ops| - 1], p);
      var op := ops[|ops| - 1];
      if op.Put? && op.hasTaskId && op.entry.project == p then before + op.entry.params else before
  }

  predicate FoldsInto(op: Op, p: Project) {
    op.Put? && op.hasTaskId && op.entry.project == p
  }

  lemma MapPendingStep(m: map<Project, Entry>, op: Op, dropped: Option<Project>, p: Project)
    requires dropped.Some? ==> op.Put? && op.entry.project !in m
    requires p in m && !m[p].hasTaskId && p in MapStep(m, op, dropped)
    ensures MapStep(m, op, dropped)[p] == if FoldsInto(op, p) then Folded(m[p], op.entry.params) else m[p]
  {
  }

  lemma PendingStep(entries: seq<Entry>, op: Op, cap: int, p: Project)
    requires cap > 0 && Bounded(entries, cap)
    requires p in Queue(entries) && !Queue(entries)[p].hasTaskId && p in Queue(Step(entries, op, cap))
    ensures Queue(Step(entries, op, cap))[p] ==
      if FoldsInto(op, p) then Folded(Queue(entries)[p], op.entry.params) else Queue(entries)[p]
  {
    StepOnMap(entries, op, cap);
    MapPendingStep(Queue(entries), op, Dropped(entries, op, cap), p);
  }

  lemma FoldOneMore(params: Params, ops: seq<Op>, i: nat, p: Project)
    requires i < |ops|
    ensures FoldedIn(params, ops[i..], p) ==
      var before := FoldedIn(params, ops[..|ops| - 1][i..], p);
      var op := ops[|ops| - 1];
      if FoldsInto(op, p) then before + op.entry.params else before
  {
    assert ops[i..][..|ops[i..]| - 1] == ops[..|ops| - 1][i..];
  }

  /** From operation `i` on, the project never left the queue. */
  predicate QueuedSince(ops: seq<Op>, i: nat, p: Project, cap: int) {
    && p in Queue(After(ops, cap))
    && (i < |ops| ==> QueuedSince(ops[..|ops| - 1], i, p, cap))
  }

  /** As long as its project stays queued, a pending create stays that create, with the later params folded in. */
  lemma {:induction false} CreateSurvives(ops: seq<Op>, i: nat, create: Entry, cap: int)
    requires cap > 0 && i <= |ops| && QueuedSince(ops, i, create.project, cap) && !create.hasTaskId
    requires create.project in Queue(After(ops[..i], cap)) && Queue(After(ops[..i], cap))[create.project] == create
    ensures Queue(After(ops, cap))[create.project] ==
      create.(params := FoldedIn(create.params, ops[i..], create.project))
  {
    if i < |ops| {
      var n := |ops| - 1;
      var front := ops[..n];
      assert front[..i] == ops[..i];
      CreateSurvives(front, i, create, cap);
      RunStaysBounded(front, cap);
      PendingStep(After(front, cap), ops[n], cap, create.project);
      FoldOneMore(create.params, ops, i, create.project);
    } else {
      assert ops[..i] == ops && ops[i..] == [];
    }
  }

  // ---- the adapter --------------------------------------------------------------------------

  /** What one board command answers; a create may answer without a readable id. */
  datatype Reply = Fails | Works(id: Option<string>)

  class HermesKanbanAdapter {
    const outbox: KanbanOutbox
    var active: map<Project, string>

    constructor (outbox: KanbanOutbox)
      ensures this.outbox == outbox && active == map[]
    {
      this.outbox, active := outbox, map[];
    }

    method SetActiveTask(p: Project, params: Params, reply: Reply) returns (ok: bool)
      modifies this, outbox
      ensures outbox.entries == if reply.Fails? then
        Enqueued(old(outbox.entries), Entry(p, Operation.SetActiveTask, false, params), false, outbox.cap)
        else old(outbox.entries)
      ensures ok <==> reply.Works? && reply.id.Some?
      ensures active == if ok then old(active)[p := reply.id.value] else old(active)
    {
      if reply.Fails? {
        outbox.Enqueue(Entry(p, Operation.SetActiveTask, false, params), false);
        return false;
      }
      if reply.id.None? {
        return false;
      }
      active := active[p := reply.id.value];
      ok := true;
    }

    method UpdatePhase(p: Project, params: Params, reply: Reply) returns (ok: bool)
      modifies outbox
      ensures active == old(active)
      ensures ok <==> p in active && reply.Works?
      ensures p !in active ==>
        outbox.entries ==
          Enqueued(old(outbox.entries), Entry(p, Operation.UpdatePhase, false, params), false, outbox.cap)
      ensures p in active && reply.Fails? ==>
        outbox.entries ==
          Enqueued(old(outbox.entries), Entry(p, Operation.UpdatePhase, true, params["task_id" := active[p]]), true,
                   outbox.cap)
      ensures ok ==> outbox.entries == old(outbox.entries)
    {
      if p !in active {
        outbox.Enqueue(Entry(p, Operation.UpdatePhase, false, params), false);
        return false;
      }
      if reply.Fails? {
        outbox.Enqueue(Entry(p, Operation.UpdatePhase, true, params["task_id" := active[p]]), true);
        return false;
      }
      ok := true;
    }

    method ClearActiveTask(p: Project, params: Params, reply: Reply) returns (ok: bool)
      modifies this, outbox
      ensures ok <==> p !in old(active) || reply.Works?
      ensures active == if ok then old(active) - {p} else old(active)
      ensures outbox.entries == if ok then old(outbox.entries) else
        Enqueued(old(outbox.entries), Entry(p, Operation.ClearActiveTask, true, params["task_id" := old(active)[p]]),
                 true, outbox.cap)
    {
      if p !in active {
        return true;
      }
      if reply.Fails? {
        outbox.Enqueue(Entry(p, Operation.ClearActiveTask, true, params["task_id" := active[p]]), true);
        return false;
      }
      active := active - {p};
      ok := true;
    }
  }

  /** Queueing again for a project that is queued drops nobody. */
  lemma PutAgainKeepsProjects(entries: seq<Entry>, e: Entry, hasTaskId: bool, cap: int)
    requires cap > 0 && Bounded(entries, cap) && e.project in Queue(entries)
    ensures Bounded(Enqueued(entries, e, hasTaskId, cap), cap)
    ensures var queue, next := Queue(entries), Queue(Enqueued(entries, e, hasTaskId, cap));
      && next.Keys == queue.Keys
      && (forall q :: q in queue && q != e.project ==> next[q] == queue[q])
      && (!hasTaskId && !queue[e.project].hasTaskId ==> next == queue)
  {
    StepOnMap(entries, Put(e, hasTaskId), cap);
  }

  /** An update that was queued without a task, while its project has none. */
  predicate Stuck(e: Entry, active: map<Project, string>) {
    e.operation.UpdatePhase? && !e.hasTaskId && e.project !in active
  }

  /** Retrying one queued entry: it is dequeued exactly when its call worked, and never lost otherwise. */
  method Retry(adapter: HermesKanbanAdapter, e: Entry, reply: Reply) returns (ok: bool)
    requires adapter.outbox.cap > 0 && Bounded(adapter.outbox.entries, adapter.outbox.cap)
    requires e.project in Queue(adapter.outbox.entries)
    modifies adapter, adapter.outbox
    ensures Bounded(adapter.outbox.entries, adapter.outbox.cap)
    ensures Queue(adapter.outbox.entries).Keys ==
      Queue(old(adapter.outbox.entries)).Keys - (if ok then {e.project} else {})
    ensures ok ==> reply.Works? || e.operation.ClearActiveTask?
    // Nothing else is touched.
    ensures forall q :: q != e.project ==> (q in adapter.active <==> q in old(adapter.active))
    ensures forall q :: q != e.project && q in Queue(old(adapter.outbox.entries)) ==>
      q in Queue(adapter.outbox.entries) && Queue(adapter.outbox.entries)[q] == Queue(old(adapter.outbox.entries))[q]
    // An update of a project without a task fails and stays as it is.
    ensures Stuck(e, old(adapter.active)) && Queue(old(adapter.outbox.entries))[e.project] == e ==>
      !ok && Stuck(e, adapter.active) && Queue(adapter.outbox.entries) == Queue(old(adapter.outbox.entries))
  {
    ghost var before, cap := adapter.outbox.entries, adapter.outbox.cap;
    match e.operation {
      case SetActiveTask =>
        PutAgainKeepsProjects(before, Entry(e.project, Operation.SetActiveTask, false, e.params), false, cap);
        ok := adapter.SetActiveTask(e.project, e.params, reply);
      case UpdatePhase =>
        PutAgainKeepsProjects(before, Entry(e.project, Operation.UpdatePhase, false, e.params), false, cap);
        if e.project in adapter.active {
          var params := e.params["task_id" := adapter.active[e.project]];
          PutAgainKeepsProjects(before, Entry(e.project, Operation.UpdatePhase, true, params), true, cap);
        }
        ok := adapter.UpdatePhase(e.project, e.params, reply);
      case ClearActiveTask =>
        if e.project in adapter.active {
          var params := e.params["task_id" := adapter.active[e.project]];
          PutAgainKeepsProjects(before, Entry(e.project, Operation.ClearActiveTask, true, params), true, cap);
        }
        ok := adapter.ClearActiveTask(e.project, e.params, reply);
    }
    if ok {
      adapter.outbox.DequeueFor(e.project);
    }
  }

  lemma QueuedByIndex(all: seq<Entry>)
    ensures forall p :: p in Queue(all) <==> exists i :: 0 <= i < |all| && all[i].project == p
  {
    QueueIsOfEntries(all);
    forall p
      ensures p in Queue(all) <==> exists i :: 0 <= i < |all| && all[i].project == p
    {
      if p in Queue(all) {
        assert Queue(all)[p] in all;
      }
    }
  }

  predicate StillStuck(e: Entry, active: map<Project, string>, queue: map<Project, Entry>) {
    Stuck(e, active) && e.project in queue && queue[e.project] == e
  }

  /** What one retry leaves of the stuck updates. */
  lemma StuckAfterRetry(all: seq<Entry>, n: nat, tasks: map<Project, string>, ok: bool, active: map<Project, string>,
                        queue: map<Project, Entry>,
                        nextActive: map<Project, string>, nextQueue: map<Project, Entry>)
    requires OnePerProject(all) && n < |all|
    requires forall i :: 0 <= i < |all| && Stuck(all[i], tasks) ==> StillStuck(all[i], active, queue)
    requires forall q :: q != all[n].project ==> (q in nextActive <==> q in active)
    requires forall q :: q != all[n].project && q in queue ==> q in nextQueue && nextQueue[q] == queue[q]
    requires StillStuck(all[n], active, queue) ==> !ok && Stuck(all[n], nextActive) && nextQueue == queue
    ensures forall i :: 0 <= i < |all| && Stuck(all[i], tasks) ==> StillStuck(all[i], nextActive, nextQueue)
    ensures Stuck(all[n], tasks) ==> !ok
  {
    forall i | 0 <= i < |all| && Stuck(all[i], tasks)
      ensures StillStuck(all[i], nextActive, nextQueue)
    {
      assert StillStuck(all[i], active, queue);
      assert i != n ==> all[i].project != all[n].project;
    }
  }

  /** The projects whose entry is still to be retried, or failed. */
  ghost predicate Remaining(all: seq<Entry>, done: seq<bool>, projects: set<Project>) {
    forall p :: p in projects <==> exists i :: 0 <= i < |all| && all[i].project == p && (i >= |done| || !done[i])
  }

  lemma RemainingAfterRetry(all: seq<Entry>, done: seq<bool>, ok: bool, projects: set<Project>)
    requires OnePerProject(all) && |done| < |all| && Remaining(all, done, projects)
    ensures Remaining(all, done + [ok], projects - if ok then {all[|done|].project} else {})
  {
    var n, next := |done|, done + [ok];
    forall p
      ensures (exists i :: 0 <= i < |all| && all[i].project == p && (i >= n + 1 || !next[i])) <==>
        p in projects && !(ok && p == all[n].project)
    {
      if i :| 0 <= i < |all| && all[i].project == p && (i >= n + 1 || !next[i]) {
        assert i >= n || !done[i];
      }
      if p in projects && !(ok && p == all[n].project) {
        var i :| 0 <= i < |all| && all[i].project == p && (i >= n || !done[i]);
        assert i >= n + 1 || !next[i];
      }
    }
  }

  /** No retry of a stuck update worked so far. */
  predicate StuckFailed(all: seq<Entry>, tasks: map<Project, string>, done: seq<bool>) {
    |done| <= |all| && forall i :: 0 <= i < |done| && Stuck(all[i], tasks) ==> !done[i]
  }

  lemma StuckFailedToo(all: seq<Entry>, tasks: map<Project, string>, done: seq<bool>, ok: bool)
    requires StuckFailed(all, tasks, done) && |done| < |all| && (Stuck(all[|done|], tasks) ==> !ok)
    ensures StuckFailed(all, tasks, done + [ok])
  {
  }

  lemma AllQueued(all: seq<Entry>)
    requires OnePerProject(all)
    ensures forall i :: 0 <= i < |all| ==> all[i].project in Queue(all) && Queue(all)[all[i].project] == all[i]
  {
    forall i | 0 <= i < |all| ensures all[i].project in Queue(all) && Queue(all)[all[i].project] == all[i] {
      QueueHolds(all, all[i]);
    }
  }

  /** A drain keeps exactly the projects whose retry failed: nothing is lost and nothing done is kept. */
  method DrainOutbox(adapter: HermesKanbanAdapter, replies: seq<Reply>) returns (done: seq<bool>)
    requires adapter.outbox.cap > 0 && Bounded(adapter.outbox.entries, adapter.outbox.cap)
    requires |replies| == |adapter.outbox.entries|
    modifies adapter, adapter.outbox
    ensures |done| == |replies| && Bounded(adapter.outbox.entries, adapter.outbox.cap)
    ensures forall p :: p in Queue(adapter.outbox.entries) <==>
      exists i :: 0 <= i < |done| && old(adapter.outbox.entries)[i].project == p && !done[i]
    // As long as its project has no task, an update queued without one is never got rid of.
    ensures forall i :: 0 <= i < |done| && Stuck(old(adapter.outbox.entries)[i], old(adapter.active)) ==>
      !done[i] && StillStuck(old(adapter.outbox.entries)[i], adapter.active, Queue(adapter.outbox.entries))
  {
    var all := adapter.outbox.entries;
    ghost var tasks := adapter.active;
    done := [];
    QueuedByIndex(all);
    AllQueued(all);
    for n := 0 to |all|
      invariant adapter.outbox.cap > 0 && Bounded(adapter.outbox.entries, adapter.outbox.cap)
      invariant |done| == n
      invariant Remaining(all, done, Queue(adapter.outbox.entries).Keys)
      invariant forall i :: 0 <= i < |all| && Stuck(all[i], tasks) ==>
        StillStuck(all[i], adapter.active, Queue(adapter.outbox.entries))
      invariant StuckFailed(all, tasks, done)
    {
      assert all[n].project in Queue(adapter.outbox.entries);
      ghost var active, queue := adapter.active, Queue(adapter.outbox.entries);
      var ok := Retry(adapter, all[n], replies[n]);
      StuckAfterRetry(all, n, tasks, ok, active, queue, adapter.active, Queue(adapter.outbox.entries));
      RemainingAfterRetry(all, done, ok, queue.Keys);
      StuckFailedToo(all, tasks, done, ok);
      done := done + [ok];
    }
  }

  // ---- where the collapse loses an operation --------------------------------------------------

  lemma QueuedAfterPut(entries: seq<Entry>, e: Entry, cap: int)
    requires cap > 0 && Bounded(entries, cap) && e.project !in Queue(entries)
    ensures var queued := Enqueued(entries, e, false, cap);
      OnePerProject(queued) && e.project in Queue(queued) && Queue(queued)[e.project] == e
  {
    StepOnMap(entries, Put(e, false), cap);
  }

  /** While such an update is queued, a create of its project is not. */
  lemma StuckBlocksCreate(entries: seq<Entry>, update: Entry, active: map<Project, string>, create: Entry, cap: int)
    requires OnePerProject(entries) && StillStuck(update, active, Queue(entries))
    requires create.operation.SetActiveTask? && !create.hasTaskId && create.project == update.project
    ensures Enqueued(entries, create, false, cap) == entries && create !in entries
  {
    PendingIsQueued(entries, update.project);
    if create in entries {
      QueueHolds(entries, create);
    }
  }

  /** An update sent before any task exists is queued like a create, and then the real create is not queued at all. */
  lemma EarlyUpdateBlocksCreate(entries: seq<Entry>, update: Entry, create: Entry, cap: int)
    requires cap > 0 && Bounded(entries, cap) && update.project !in Queue(entries)
    requires update.operation.UpdatePhase? && !update.hasTaskId
    requires create.operation.SetActiveTask? && !create.hasTaskId && create.project == update.project
    ensures var queued := Enqueued(entries, update, false, cap);
      && StillStuck(update, map[], Queue(queued))
      && Enqueued(queued, create, false, cap) == queued && create !in queued
  {
    QueuedAfterPut(entries, update, cap);
    StuckBlocksCreate(Enqueued(entries, update, false, cap), update, map[], create, cap);
  }

  /** And a waiting create ignores such an update: nothing of it is folded in. */
  lemma WaitingCreateIgnoresUpdate(entries: seq<Entry>, create: Entry, update: Entry, cap: int)
    requires cap > 0 && Bounded(entries, cap) && create.project !in Queue(entries)
    requires create.operation.SetActiveTask? && !create.hasTaskId
    requires update.operation.UpdatePhase? && !update.hasTaskId && update.project == create.project
    ensures var queued := Enqueued(entries, create, false, cap); Enqueued(queued, update, false, cap) == queued
    ensures Queue(Enqueued(Enqueued(entries, create, false, cap), update, true, cap)) ==
      Queue(Enqueued(entries, create, false, cap))[create.project := Folded(create, update.params)]
  {
    QueuedAfterPut(entries, create, cap);
    var queued := Enqueued(entries, create, false, cap);
    PendingIsQueued(queued, create.project);
    OverflowDropsOldest(entries, create, false, cap);
    StepOnMap(queued, Put(update, true), cap);
  }

  // ---- which create is the one queued ------------------------------------------------------------

  /** An entry without a task is queued for the project. */
  predicate HasTaskless(entries: seq<Entry>, p: Project) {
    p in Queue(entries) && !Queue(entries)[p].hasTaskId
  }

  /** With a positive cap a new create is the one queued exactly when no other entry without a task was. */
  lemma CreateIsQueuedExactly(entries: seq<Entry>, create: Entry, cap: int)
    requires cap > 0 && Bounded(entries, cap) && !create.hasTaskId
    ensures var queued := Enqueued(entries, create, false, cap);
      && create.project in Queue(queued)
      && (Queue(queued)[create.project] == create <==>
            (HasTaskless(entries, create.project) ==> Queue(entries)[create.project] == create))
      && (HasTaskless(entries, create.project) ==> queued == entries)
  {
    StepOnMap(entries, Put(create, false), cap);
    PendingIsQueued(entries, create.project);
  }

  /** Which entry stays when the create is queued. */
  function Kept(entries: seq<Entry>, create: Entry): Entry {
    if HasTaskless(entries, create.project) then Queue(entries)[create.project] else create
  }

  lemma KeptIsQueued(entries: seq<Entry>, create: Entry, cap: int)
    requires cap > 0 && Bounded(entries, cap) && !create.hasTaskId
    ensures var queue, kept := Queue(Enqueued(entries, create, false, cap)), Kept(entries, create);
      create.project in queue && queue[create.project] == kept && kept.project == create.project && !kept.hasTaskId
  {
    StepOnMap(entries, Put(create, false), cap);
    QueueIsOfEntries(entries);
  }

  /** The adapter says of every entry it queues whether it knows a task. */
  predicate Labelled(ops: seq<Op>) {
    forall op :: op in ops && op.Put? ==> op.hasTaskId == op.entry.hasTaskId
  }

  /** Operation `i` queued an entry without a task, and its project was never dequeued or dropped since. */
  predicate QueuedTaskless(ops: seq<Op>, i: nat, p: Project, cap: int) {
    i < |ops| && ops[i].Put? && !ops[i].hasTaskId && ops[i].entry.project == p && QueuedSince(ops, i + 1, p, cap)
  }

  lemma PutTaskless(entries: seq<Entry>, e: Entry, cap: int)
    requires cap > 0 && Bounded(entries, cap) && !e.hasTaskId
    ensures HasTaskless(Enqueued(entries, e, false, cap), e.project)
  {
    StepOnMap(entries, Put(e, false), cap);
  }

  /** One operation leaves an entry without a task only where one was, or where it put one. */
  lemma TasklessStep(entries: seq<Entry>, op: Op, cap: int, p: Project)
    requires cap > 0 && Bounded(entries, cap) && (op.Put? ==> op.hasTaskId == op.entry.hasTaskId)
    ensures HasTaskless(Step(entries, op, cap), p) <==>
      || (op.Put? && !op.hasTaskId && op.entry.project == p)
      || (HasTaskless(entries, p) && p in Queue(Step(entries, op, cap)))
  {
    StepOnMap(entries, op, cap);
  }

  /** Over any run an entry without a task is queued exactly when one was put and its project stayed queued. */
  lemma {:induction false} TasklessQueuedExactly(ops: seq<Op>, p: Project, cap: int)
    requires cap > 0 && Labelled(ops)
    ensures HasTaskless(After(ops, cap), p) <==> exists i :: QueuedTaskless(ops, i, p, cap)
  {
    if ops != [] {
      var n := |ops| - 1;
      var front := ops[..n];
      assert forall op :: op in front ==> op in ops;
      TasklessQueuedExactly(front, p, cap);
      RunStaysBounded(front, cap);
      assert ops[n] in ops;
      TasklessStep(After(front, cap), ops[n], cap, p);
      forall i: nat
        ensures QueuedTaskless(ops, i, p, cap) <==>
          || (i == n && ops[n].Put? && !ops[n].hasTaskId && ops[n].entry.project == p && p in Queue(After(ops, cap)))
          || (QueuedTaskless(front, i, p, cap) && p in Queue(After(ops, cap)))
      {
        assert i < n ==> front[i] == ops[i];
      }
      if exists i: nat :: QueuedTaskless(front, i, p, cap) && p in Queue(After(ops, cap)) {
        var i: nat :| QueuedTaskless(front, i, p, cap) && p in Queue(After(ops, cap));
        assert QueuedTaskless(ops, i, p, cap);
      }
      if ops[n].Put? && !ops[n].hasTaskId && ops[n].entry.project == p {
        assert HasTaskless(After(ops, cap), p);
        assert QueuedTaskless(ops, n, p, cap);
      }
    }
  }

  /**
   * Over any run: as long as its project stays queued, what a drain finds there is the create
   * itself where no earlier entry without a task was queued when it came, and that earlier entry
   * where one was. Later operations that know a task are folded in, in order.
   */
  lemma QueuedCreateExactly(ops: seq<Op>, i: nat, cap: int)
    requires cap > 0 && Labelled(ops) && i < |ops| && ops[i].Put? && !ops[i].hasTaskId
    requires QueuedSince(ops, i + 1, ops[i].entry.project, cap)
    ensures var create, before := ops[i].entry, ops[..i];
      && create.project in Queue(After(ops, cap))
      && var kept := Kept(After(before, cap), create);
         Queue(After(ops, cap))[create.project] == kept.(params := FoldedIn(kept.params, ops[i + 1..], create.project))
  {
    var create, before := ops[i].entry, ops[..i];
    assert ops[i] in ops;
    assert forall op :: op in before ==> op in ops;
    RunStaysBounded(before, cap);
    var next := ops[..i + 1];
    assert next[..i] == before && next[i] == ops[i] && |next| == i + 1;
    assert After(next, cap) == Enqueued(After(before, cap), create, false, cap);
    KeptIsQueued(After(before, cap), create, cap);
    CreateSurvives(ops, i + 1, Kept(After(before, cap), create), cap);
  }
}
