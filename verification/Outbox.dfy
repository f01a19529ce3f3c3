/**
 * The queue of kanban operations waiting for a retry (kanban.py). Operations of one project
 * collapse into one entry; a pending create is kept and later operations are folded into it.
 */
module Outbox {
  import opened Common

  datatype Project = Project(name: string)
  type Params = map<string, string>

  datatype Operation = SetActiveTask | UpdatePhase | ClearActiveTask

  datatype Entry = Entry(project: Project, operation: Operation, hasTaskId: bool, params: Params)

  // ---- the queue as a sequence ---------------------------------------------------------------

  function Without(entries: seq<Entry>, p: Project): (r: seq<Entry>)
    ensures |r| <= |entries|
    ensures forall e :: e in r <==> e in entries && e.project != p
  {
    if entries == [] then []
    else (if entries[0].project == p then [] else [entries[0]]) + Without(entries[1..], p)
  }

  /** The first entry of the project that has no task yet. */
  function PendingCreate(entries: seq<Entry>, p: Project): (r: Option<Entry>)
    ensures r.Some? ==> r.value in entries && r.value.project == p && !r.value.hasTaskId
    ensures r.None? ==> forall e :: e in entries && e.project == p ==> e.hasTaskId
  {
    if entries == [] then None
    else if entries[0].project == p && !entries[0].hasTaskId then Some(entries[0])
    else PendingCreate(entries[1..], p)
  }

  function Replaced(entries: seq<Entry>, old_: Entry, new_: Entry): (r: seq<Entry>)
    ensures |r| == |entries|
    ensures forall i :: 0 <= i < |r| ==> r[i] == if entries[i] == old_ then new_ else entries[i]
  {
    seq(|entries|, i requires 0 <= i < |entries| => if entries[i] == old_ then new_ else entries[i])
  }

  function Folded(create: Entry, params: Params): Entry {
    create.(params := create.params + params)
  }

  /** The queue after the collapse, before the cap is looked at. */
  function Collapsed(entries: seq<Entry>, e: Entry, hasTaskId: bool): seq<Entry> {
    match PendingCreate(entries, e.project)
    case Some(create) => if hasTaskId then Replaced(entries, create, Folded(create, e.params)) else entries
    case None => Without(entries, e.project) + [e]
  }

  /** A list sliced from minus `cap`: with cap zero that is the whole list. */
  function Tail(entries: seq<Entry>, cap: int): seq<Entry> {
    if cap > 0 then entries[if |entries| > cap then |entries| - cap else 0..]
    else entries[if -cap < |entries| then -cap else |entries|..]
  }

  function Enqueued(entries: seq<Entry>, e: Entry, hasTaskId: bool, cap: int): seq<Entry> {
    if !hasTaskId && PendingCreate(entries, e.project).Some? then entries
    else
      var s := Collapsed(entries, e, hasTaskId);
      if |s| > cap then Tail(s, cap) else s
  }

  // ---- the queue as a map ---------------------------------------------------------------------

  predicate OnePerProject(entries: seq<Entry>) {
    forall i, j :: 0 <= i < j < |entries| ==> entries[i].project != entries[j].project
  }

  /** What is queued for each project. */
  function Queue(entries: seq<Entry>): map<Project, Entry> {
    if entries == [] then map[]
    else Queue(entries[1..])[entries[0].project := entries[0]]
  }

  lemma {:induction false} QueueIsOfEntries(entries: seq<Entry>)
    ensures forall p :: p in Queue(entries) ==> Queue(entries)[p].project == p && Queue(entries)[p] in entries
    ensures forall e :: e in entries ==> e.project in Queue(entries)
  {
    if entries != [] {
      QueueIsOfEntries(entries[1..]);
    }
  }

  lemma {:induction false} QueueHolds(entries: seq<Entry>, e: Entry)
    requires OnePerProject(entries) && e in entries
    ensures e.project in Queue(entries) && Queue(entries)[e.project] == e
  {
    if entries[0] != e {
      QueueHolds(entries[1..], e);
      var i :| 0 <= i < |entries| && entries[i] == e;
      assert entries[0].project != entries[i].project;
    }
  }

  /** Two queues with the same entries are the same map. */
  lemma SameEntriesSameQueue(a: seq<Entry>, m: map<Project, Entry>)
    requires OnePerProject(a)
    requires forall e :: e in a ==> e.project in m && m[e.project] == e
    requires forall p :: p in m ==> m[p] in a && m[p].project == p
    ensures Queue(a) == m
  {
    QueueIsOfEntries(a);
    forall p | p in m
      ensures p in Queue(a) && Queue(a)[p] == m[p]
    {
      QueueHolds(a, m[p]);
    }
  }

  /** The simple map the outbox is meant to be. */
  function MapEnqueue(m: map<Project, Entry>, e: Entry, hasTaskId: bool): map<Project, Entry> {
    if e.project in m && !m[e.project].hasTaskId then
      if hasTaskId then m[e.project := Folded(m[e.project], e.params)] else m
    else m[e.project := e]
  }

  lemma RestIsOne(entries: seq<Entry>)
    requires OnePerProject(entries) && entries != []
    ensures OnePerProject(entries[1..]) && forall e :: e in entries[1..] ==> e.project != entries[0].project
  {
    var rest := entries[1..];
    forall i, j | 0 <= i < j < |rest|
      ensures rest[i].project != rest[j].project
    {
      assert rest[i] == entries[i + 1] && rest[j] == entries[j + 1];
    }
    forall e | e in rest
      ensures e.project != entries[0].project
    {
      var i :| 0 <= i < |rest| && rest[i] == e;
      assert entries[i + 1] == e;
    }
  }

  lemma {:induction false} WithoutAbsent(entries: seq<Entry>, p: Project)
    requires forall e :: e in entries ==> e.project != p
    ensures Without(entries, p) == entries
  {
    if entries != [] {
      WithoutAbsent(entries[1..], p);
      assert entries == [entries[0]] + entries[1..];
    }
  }

  lemma {:induction false} WithoutIsOne(entries: seq<Entry>, p: Project)
    requires OnePerProject(entries)
    ensures OnePerProject(Without(entries, p))
    ensures |Without(entries, p)| == |entries| - (if exists e :: e in entries && e.project == p then 1 else 0)
    ensures (forall e :: e in entries ==> e.project != p) ==> Without(entries, p) == entries
  {
    if entries != [] {
      var rest := entries[1..];
      RestIsOne(entries);
      WithoutIsOne(rest, p);
      assert forall e :: e in entries <==> e == entries[0] || e in rest;
      if entries[0].project == p {
        WithoutAbsent(rest, p);
      } else {
        var kept := Without(rest, p);
        forall i, j | 0 <= i < j < |kept| + 1
          ensures ([entries[0]] + kept)[i].project != ([entries[0]] + kept)[j].project
        {
          assert kept[j - 1] in kept;
        }
      }
    }
  }

  lemma PendingIsQueued(entries: seq<Entry>, p: Project)
    requires OnePerProject(entries)
    ensures PendingCreate(entries, p).Some? <==> p in Queue(entries) && !Queue(entries)[p].hasTaskId
    ensures PendingCreate(entries, p).Some? ==> Queue(entries)[p] == PendingCreate(entries, p).value
  {
    QueueIsOfEntries(entries);
    if PendingCreate(entries, p).Some? {
      QueueHolds(entries, PendingCreate(entries, p).value);
    }
  }

  lemma ReplacedIsDistinct(entries: seq<Entry>, create: Entry, params: Params)
    requires OnePerProject(entries)
    ensures OnePerProject(Replaced(entries, create, Folded(create, params)))
  {
    var r := Replaced(entries, create, Folded(create, params));
    assert forall i :: 0 <= i < |r| ==> r[i].project == entries[i].project;
  }

  lemma ReplacedIsOne(entries: seq<Entry>, create: Entry, params: Params)
    requires OnePerProject(entries) && create in entries
    ensures OnePerProject(Replaced(entries, create, Folded(create, params)))
    ensures Queue(Replaced(entries, create, Folded(create, params))) ==
      Queue(entries)[create.project := Folded(create, params)]
  {
    var r := Replaced(entries, create, Folded(create, params));
    var m := Queue(entries)[create.project := Folded(create, params)];
    ReplacedIsDistinct(entries, create, params);
    QueueIsOfEntries(entries);
    QueueHolds(entries, create);
    forall e | e in r
      ensures e.project in m && m[e.project] == e
    {
      var i :| 0 <= i < |r| && r[i] == e;
      QueueHolds(entries, entries[i]);
    }
    forall p | p in m
      ensures m[p] in r && m[p].project == p
    {
      var old_ := if p == create.project then create else m[p];
      var i :| 0 <= i < |entries| && entries[i] == old_;
      assert r[i] == m[p];
    }
    SameEntriesSameQueue(r, m);
  }

  lemma DequeueRefinesMap(entries: seq<Entry>, p: Project)
    requires OnePerProject(entries)
    ensures OnePerProject(Without(entries, p))
    ensures Queue(Without(entries, p)) == Queue(entries) - {p}
  {
    WithoutIsOne(entries, p);
    QueueIsOfEntries(entries);
    var m := Queue(entries) - {p};
    forall e | e in Without(entries, p)
      ensures e.project in m && m[e.project] == e
    {
      QueueHolds(entries, e);
    }
    SameEntriesSameQueue(Without(entries, p), m);
  }

  lemma AppendNew(kept: seq<Entry>, e: Entry)
    requires OnePerProject(kept) && forall x :: x in kept ==> x.project != e.project
    ensures OnePerProject(kept + [e])
    ensures Queue(kept + [e]) == Queue(kept)[e.project := e]
  {
    var r, m := kept + [e], Queue(kept)[e.project := e];
    QueueIsOfEntries(kept);
    forall i, j | 0 <= i < j < |r|
      ensures r[i].project != r[j].project
    {
      assert kept[i] in kept;
    }
    forall x | x in r
      ensures x.project in m && m[x.project] == x
    {
      if x in kept {
        QueueHolds(kept, x);
      }
    }
    SameEntriesSameQueue(r, m);
  }

  lemma AppendedIsOne(entries: seq<Entry>, e: Entry)
    requires OnePerProject(entries)
    ensures OnePerProject(Without(entries, e.project) + [e])
    ensures Queue(Without(entries, e.project) + [e]) == Queue(entries)[e.project := e]
  {
    DequeueRefinesMap(entries, e.project);
    AppendNew(Without(entries, e.project), e);
  }

  /** Short of the cap, the outbox is exactly the project map. */
  lemma CollapseRefinesMap(entries: seq<Entry>, e: Entry, hasTaskId: bool)
    requires OnePerProject(entries)
    ensures OnePerProject(Collapsed(entries, e, hasTaskId))
    ensures Queue(Collapsed(entries, e, hasTaskId)) == MapEnqueue(Queue(entries), e, hasTaskId)
    ensures |entries| <= |Collapsed(entries, e, hasTaskId)| <= |entries| + 1
  {
    PendingIsQueued(entries, e.project);
    match PendingCreate(entries, e.project)
    case Some(create) => ReplacedIsOne(entries, create, e.params);
    case None =>
      AppendedIsOne(entries, e);
      WithoutIsOne(entries, e.project);
  }

  // ---- the cap ------------------------------------------------------------------------------------

  /** A new project arrives at a full queue. */
  predicate Overflows(entries: seq<Entry>, e: Entry, cap: int) {
    |entries| == cap && e.project !in Queue(entries)
  }

  lemma CollapseGrows(entries: seq<Entry>, e: Entry, hasTaskId: bool)
    requires OnePerProject(entries)
    ensures |Collapsed(entries, e, hasTaskId)| == |entries| + if e.project in Queue(entries) then 0 else 1
    ensures e.project !in Queue(entries) ==> Collapsed(entries, e, hasTaskId) == entries + [e]
  {
    PendingIsQueued(entries, e.project);
    WithoutIsOne(entries, e.project);
    QueueIsOfEntries(entries);
  }

  /**
   * With a positive cap an enqueue stays within it, and drops nothing but the oldest position, and that
   * only when full.
   */
  lemma OverflowDropsOldest(entries: seq<Entry>, e: Entry, hasTaskId: bool, cap: int)
    requires OnePerProject(entries) && cap > 0 && |entries| <= cap
    ensures |Enqueued(entries, e, hasTaskId, cap)| <= cap
    ensures Enqueued(entries, e, hasTaskId, cap) ==
      if Overflows(entries, e, cap) then entries[1..] + [e] else Collapsed(entries, e, hasTaskId)
  {
    CollapseGrows(entries, e, hasTaskId);
    PendingIsQueued(entries, e.project);
    if Overflows(entries, e, cap) {
      assert (entries + [e])[1..] == entries[1..] + [e];
    }
  }

  /**
   * The bound holds after every enqueue exactly when the cap is positive: sliced from minus zero,
   * nothing is dropped.
   */
  lemma BoundNeedsPositiveCap(cap: nat)
    ensures cap > 0 <==> forall entries, e, hasTaskId ::
      OnePerProject(entries) && |entries| <= cap ==> |Enqueued(entries, e, hasTaskId, cap)| <= cap
  {
    if cap > 0 {
      forall entries, e, hasTaskId | OnePerProject(entries) && |entries| <= cap
        ensures |Enqueued(entries, e, hasTaskId, cap)| <= cap
      {
        OverflowDropsOldest(entries, e, hasTaskId, cap);
      }
    } else {
      var e := Entry(Project(""), SetActiveTask, false, map[]);
      assert Collapsed([], e, false) == [e];
      assert |Enqueued([], e, false, 0)| == 1;
    }
  }

  // ---- the object -----------------------------------------------------------------------------------

  class KanbanOutbox {
    const cap: int
    var entries: seq<Entry>

    constructor (cap: int, loaded: seq<Entry>)
      ensures this.cap == cap && entries == loaded
    {
      this.cap, entries := cap, loaded;
    }

    method Enqueue(entry: Entry, hasTaskId: bool)
      modifies this
      ensures entries == Enqueued(old(entries), entry, hasTaskId, cap)
    {
      var create := PendingCreate(entries, entry.project);
      if !hasTaskId {
        if create.Some? {
          return;
        }
        entries := Without(entries, entry.project) + [entry];
      } else if create.Some? {
        var updated := Entry(create.value.project, create.value.operation, create.value.hasTaskId,
                             create.value.params + entry.params);
        entries := Replaced(entries, create.value, updated);
      } else {
        entries := Without(entries, entry.project) + [entry];
      }
      if |entries| > cap {
        entries := Tail(entries, cap);
      }
    }

    method DequeueFor(project: Project)
      modifies this
      ensures entries == Without(old(entries), project)
      ensures OnePerProject(old(entries)) ==>
        OnePerProject(entries) && Queue(entries) == Queue(old(entries)) - {project}
    {
      if OnePerProject(entries) {
        DequeueRefinesMap(entries, project);
      }
      entries := Without(entries, project);
    }
  }
}
