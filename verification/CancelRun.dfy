/**
 * Cancelling the cards of a run (kanban_tasks.py): running workers are reclaimed, then the
 * cards are archived one at a time in child-first order, so that at no moment a live card
 * hangs below an archived one, wherever the commands fail.
 */
module CancelRun {
  import opened Common
  import opened ChildFirst

  datatype Status = Waiting | Running | Finished | Archived

  type Links = map<Id, seq<Id>>

  /** No live card has an archived parent. */
  ghost predicate NoneOrphaned(status: map<Id, Status>, parents: Links) {
    forall c, p :: ChildOf(parents, c, p) && c in status && p in status && status[p] == Archived ==>
      status[c] == Archived
  }

  /** Every child of every listed card is listed earlier, or is archived already. */
  ghost predicate ChildrenFirst(status: map<Id, Status>, parents: Links, ids: seq<Id>) {
    forall i, c :: 0 <= i < |ids| && c in status && ChildOf(parents, c, ids[i]) ==>
      c in ids[..i] || status[c] == Archived
  }

  /** Only these cards changed, and only by being archived. */
  ghost predicate OnlyArchives(before: map<Id, Status>, after: map<Id, Status>, ids: seq<Id>) {
    && after.Keys == before.Keys
    && forall c :: c in after ==> after[c] == before[c] || (c in ids && after[c] == Archived)
  }

  /** A computed order of all the cards of the board archives children first. */
  lemma OrderIsChildrenFirst(status: map<Id, Status>, parents: Links, ids: seq<Id>, order: seq<Id>)
    requires Distinct(ids) && IsOrder(ids, parents, order)
    requires forall c :: c in status && status[c] != Archived && c in parents ==> c in ids
    ensures ChildrenFirst(status, parents, order)
  {
    forall i, c | 0 <= i < |order| && c in status && ChildOf(parents, c, order[i])
      ensures c in order[..i] || status[c] == Archived
    {
      assert Available(ids, parents, order[..i], order[i]);
    }
  }

  /** Archiving the next card of such a list orphans nobody. */
  lemma ArchiveNext(start: map<Id, Status>, status: map<Id, Status>, parents: Links, ids: seq<Id>, i: nat)
    requires i < |ids| && ids[i] in status && status.Keys == start.Keys
    requires ChildrenFirst(start, parents, ids) && NoneOrphaned(status, parents)
    requires forall c :: c in start && (start[c] == Archived || c in ids[..i]) ==> status[c] == Archived
    requires !ChildOf(parents, ids[i], ids[i])
    ensures NoneOrphaned(status[ids[i] := Archived], parents)
  {
  }

  /** Whether one archive command takes effect, and whether its answer, or the listing after it, is readable. */
  datatype Answer = Answer(lands: bool, confirmed: bool)

  predicate Acknowledged(answers: seq<Answer>, i: nat) {
    i < |answers| && answers[i].confirmed
  }

  /** The board never acknowledges a command that did not take effect. */
  predicate Truthful(answers: seq<Answer>) {
    forall a :: a in answers && a.confirmed ==> a.lands
  }

  class Board {
    const parents: Links
    var status: map<Id, Status>

    constructor (parents: Links, status: map<Id, Status>)
      ensures this.parents == parents && this.status == status
    {
      this.parents, this.status := parents, status;
    }

    /** Archives in order, confirming each card before the next; stops at the first that is not confirmed. */
    method ArchiveTasks(ids: seq<Id>, listedFirst: bool, answers: seq<Answer>) returns (ok: bool, ghost done: nat)
      requires forall i :: 0 <= i < |ids| ==> ids[i] in status && !ChildOf(parents, ids[i], ids[i])
      requires ChildrenFirst(status, parents, ids) && NoneOrphaned(status, parents)
      modifies this
      ensures NoneOrphaned(status, parents)
      ensures OnlyArchives(old(status), status, ids)
      ensures ok ==> forall id :: id in ids ==> status[id] == Archived
      // Nothing after the first card that is not confirmed was touched.
      ensures done <= |ids| && (ok ==> done == |ids|) && forall i :: 0 <= i < done ==> status[ids[i]] == Archived
      ensures done < |ids| ==> OnlyArchives(old(status), status, ids[..done + 1])
    {
      ghost var start := status;
      var known := if listedFirst then status else map[];
      var used := 0;
      done := 0;
      for i := 0 to |ids|
        invariant done == i && status.Keys == start.Keys && NoneOrphaned(status, parents)
        invariant forall k :: 0 <= k < i ==> status[ids[k]] == Archived
        invariant OnlyArchives(start, status, ids[..i])
        invariant forall c :: c in known ==> c in status && (known[c] == Archived ==> status[c] == Archived)
      {
        assert ids[..i + 1] == ids[..i] + [ids[i]];
        if ids[i] in known && known[ids[i]] == Archived {
          done := i + 1;
          continue;
        }
        if used >= |answers| {
          return false, i;
        }
        var answer := answers[used];
        used := used + 1;
        if answer.lands {
          ArchiveNext(start, status, parents, ids, i);
          status := status[ids[i] := Archived];
        }
        if !answer.confirmed {
          return false, i;
        }
        known := status;
        if status[ids[i]] != Archived {
          return false, i;
        }
        done := i + 1;
      }
      assert ids[..|ids|] == ids;
      ok := true;
    }

    /** Reclaims every running card; false at the first worker whose end is not confirmed. */
    method ReclaimWorkers(ids: seq<Id>, stopped: set<Id>) returns (ok: bool)
      requires forall i :: 0 <= i < |ids| ==> ids[i] in status
      ensures ok <==> forall id :: id in ids && status[id] == Running ==> id in stopped
    {
      for i := 0 to |ids|
        invariant forall id :: id in ids[..i] && status[id] == Running ==> id in stopped
      {
        if status[ids[i]] == Running && ids[i] !in stopped {
          return false;
        }
        assert ids[..i + 1] == ids[..i] + [ids[i]];
      }
      assert ids[..|ids|] == ids;
      ok := true;
    }

    /**
     * Archives in order the cards that were not archived when listed, and stops at the first
     * command that is not acknowledged. An acknowledgement is taken at its word.
     */
    method ArchiveEach(ids: seq<Id>, answers: seq<Answer>) returns (ok: bool, ghost done: nat)
      requires forall i :: 0 <= i < |ids| ==> ids[i] in status && !ChildOf(parents, ids[i], ids[i])
      requires ChildrenFirst(status, parents, ids) && NoneOrphaned(status, parents)
      modifies this
      ensures done <= |ids| && (ok <==> done == |ids|)
      ensures forall i :: 0 <= i < done ==> old(status)[ids[i]] == Archived || Acknowledged(answers, i)
      ensures done < |ids| ==> old(status)[ids[done]] != Archived && !Acknowledged(answers, done)
      // Nothing after the card it stopped at was touched; every one before it is archived where the answers were true.
      ensures OnlyArchives(old(status), status, if ok then ids else ids[..done + 1])
      ensures Truthful(answers) ==>
        NoneOrphaned(status, parents) && forall i :: 0 <= i < done ==> status[ids[i]] == Archived
    {
      ghost var start := status;
      var listed := status;
      done := 0;
      for i := 0 to |ids|
        invariant done == i && status.Keys == start.Keys && OnlyArchives(start, status, ids[..i])
        invariant forall k :: 0 <= k < i ==> start[ids[k]] == Archived || Acknowledged(answers, k)
        invariant Truthful(answers) ==> NoneOrphaned(status, parents)
        invariant Truthful(answers) ==>
          forall c :: c in start && (start[c] == Archived || c in ids[..i]) ==> status[c] == Archived
      {
        assert ids[..i + 1] == ids[..i] + [ids[i]];
        if listed[ids[i]] == Archived {
          done := i + 1;
          continue;
        }
        if i >= |answers| {
          return false, i;
        }
        if answers[i].lands {
          if Truthful(answers) {
            ArchiveNext(start, status, parents, ids, i);
          }
          status := status[ids[i] := Archived];
        }
        if !answers[i].confirmed {
          return false, i;
        }
        assert answers[i] in answers;
        done := i + 1;
      }
      assert ids[..|ids|] == ids;
      ok := true;
    }

    /** The final listing shows every one of the cards archived. */
    method ConfirmArchived(tasks: seq<Task>) returns (ok: bool)
      requires forall t :: t in tasks ==> t.id.Some? && t.id.value in status
      ensures ok <==> forall t :: t in tasks ==> status[t.id.value] == Archived
    {
      for i := 0 to |tasks|
        invariant forall t :: t in tasks[..i] ==> status[t.id.value] == Archived
      {
        if status[tasks[i].id.value] != Archived {
          return false;
        }
        assert tasks[..i + 1] == tasks[..i] + [tasks[i]];
      }
      assert tasks[..|tasks|] == tasks;
      ok := true;
    }

    /**
     * Cancels the cards of a run. Nothing is archived while a worker may still run; where
     * acknowledged commands took effect, every card is archived after all its children; success
     * means every card is archived, whatever was acknowledged.
     */
    method Cancel(tasks: seq<Task>, details: map<Id, Detail>, stopped: set<Id>, answers: seq<Answer>, quiet: bool)
      returns (ok: bool)
      requires forall t :: t in tasks && t.id.Some? ==> t.id.value in status
      requires Listed(tasks) && AllShown(tasks, details) ==> Agrees(status, parents, tasks, details)
      requires NoneOrphaned(status, parents)
      modifies this
      ensures status.Keys == old(status).Keys && (Truthful(answers) ==> NoneOrphaned(status, parents))
      ensures ok ==> forall t :: t in tasks ==> t.id.Some? && status[t.id.value] == Archived
      ensures status != old(status) ==>
        (&& Listed(tasks) && AllShown(tasks, details) && Acyclic(IdsOf(tasks), ParentsOf(tasks, details))
         && OnlyArchives(old(status), status, IdsOf(tasks))
         && forall id :: id in IdsOf(tasks) && old(status)[id] == Running ==> id in stopped)
    {
      var order := ChildFirstTaskOrder(tasks, details);
      if order.None? {
        return false;
      }
      var ids := IdsOf(order.value);
      SameIds(tasks, order.value);
      ok := ReclaimWorkers(ids, stopped);
      if !ok {
        return false;
      }
      OrderFitsBoard(status, parents, tasks, details, order.value);
      ghost var done;
      ok, done := ArchiveEach(ids, answers);
      assert forall id :: id in ids[..done + if ok then 0 else 1] ==> id in ids;
      SameIdsArchived(old(status), status, ids, IdsOf(tasks));
      if ok && quiet {
        ok := ConfirmArchived(tasks);
      } else {
        ok := false;
      }
    }
  }

  /** The board's links are those its detail views show, and a live child of a listed card is listed. */
  ghost predicate Agrees(status: map<Id, Status>, parents: Links, tasks: seq<Task>, details: map<Id, Detail>)
    requires Listed(tasks) && AllShown(tasks, details)
  {
    && (forall id :: id in ParentsOf(tasks, details) ==> id in parents && parents[id] == ParentsOf(tasks, details)[id])
    && (forall c, p :: ChildOf(parents, c, p) && c in status && p in IdsOf(tasks) && status[c] != Archived ==>
          c in IdsOf(tasks))
  }

  lemma SameIdsArchived(before: map<Id, Status>, after: map<Id, Status>, ids: seq<Id>, same: seq<Id>)
    requires OnlyArchives(before, after, ids) && forall id :: id in ids <==> id in same
    ensures OnlyArchives(before, after, same)
  {
  }

  lemma SameIds(tasks: seq<Task>, order: seq<Task>)
    requires Listed(tasks) && Listed(order) && multiset(order) == multiset(tasks)
    ensures forall t :: t in tasks <==> t in order
    ensures forall id :: id in IdsOf(order) <==> id in IdsOf(tasks)
  {
    forall t
      ensures t in tasks <==> t in order
    {
      assert t in multiset(tasks) <==> t in multiset(order);
    }
    forall id | id in IdsOf(order)
      ensures id in IdsOf(tasks)
    {
      var i :| 0 <= i < |order| && IdsOf(order)[i] == id;
      assert order[i] in tasks;
      var j :| 0 <= j < |tasks| && tasks[j] == order[i];
      assert IdsOf(tasks)[j] == id;
    }
    forall id | id in IdsOf(tasks)
      ensures id in IdsOf(order)
    {
      var i :| 0 <= i < |tasks| && IdsOf(tasks)[i] == id;
      assert tasks[i] in order;
      var j :| 0 <= j < |order| && order[j] == tasks[i];
      assert IdsOf(order)[j] == id;
    }
  }

  lemma OrderFitsBoard(status: map<Id, Status>, parents: Links, tasks: seq<Task>, details: map<Id, Detail>,
                       order: seq<Task>)
    requires Listed(tasks) && AllShown(tasks, details) && Listed(order)
    requires Closed(IdsOf(tasks), ParentsOf(tasks, details))
    requires IsOrder(IdsOf(tasks), ParentsOf(tasks, details), IdsOf(order))
    requires Acyclic(IdsOf(tasks), ParentsOf(tasks, details))
    requires Agrees(status, parents, tasks, details)
    ensures ChildrenFirst(status, parents, IdsOf(order))
    ensures forall i :: 0 <= i < |order| ==> !ChildOf(parents, IdsOf(order)[i], IdsOf(order)[i])
  {
    var ids, shown, sorted := IdsOf(tasks), ParentsOf(tasks, details), IdsOf(order);
    GreedyIsDistinct(ids, shown, sorted);
    forall i, c | 0 <= i < |sorted| && c in status && ChildOf(parents, c, sorted[i])
      ensures c in sorted[..i] || status[c] == Archived
    {
      assert Available(ids, shown, sorted[..i], sorted[i]);
      assert sorted[i] in sorted;
      if status[c] != Archived {
        assert c in ids && c in shown;
      }
    }
    forall i | 0 <= i < |sorted|
      ensures !ChildOf(parents, sorted[i], sorted[i])
    {
      var id := sorted[i];
      assert id in ids && id in shown;
      assert !Cycle(ids, shown, [id, id]);
    }
  }
}
