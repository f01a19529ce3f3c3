/**
 * The order in which a chain of cards is archived: every child before each of its parents,
 * the smallest available id first (kanban_tasks.py, the topological sort with a heap).
 */
module ChildFirst {
  import opened Common

  /** A card id, as the board prints it. */
  datatype Id = Id(text: string)

  /** A card of the board listing; `id` is None where the listing holds something that is not text. */
  datatype Task = Task(id: Option<Id>, title: string)

  /** What the detail view of a card shows; None where the field has the wrong shape. */
  datatype Detail = Detail(shownId: Option<Id>, parents: Option<seq<Id>>, runsListed: bool)

  // ---- the order on ids -------------------------------------------------------------------

  /** Text order by code point. */
  predicate TextLess(a: string, b: string) {
    if b == [] then false
    else if a == [] then true
    else a[0] < b[0] || (a[0] == b[0] && TextLess(a[1..], b[1..]))
  }

  lemma {:induction false} TextLessIsTotal(a: string, b: string)
    ensures a != b ==> TextLess(a, b) || TextLess(b, a)
    ensures TextLess(a, b) ==> !TextLess(b, a)
  {
    if a != [] && b != [] {
      TextLessIsTotal(a[1..], b[1..]);
      assert a == [a[0]] + a[1..] && b == [b[0]] + b[1..];
    }
  }

  lemma {:induction false} TextLessIsTransitive(a: string, b: string, c: string)
    requires !TextLess(b, a) && TextLess(c, a)
    ensures !TextLess(b, c)
  {
    if b != [] && a != [] && c != [] {
      if !TextLess(b[1..], a[1..]) && TextLess(c[1..], a[1..]) {
        TextLessIsTransitive(a[1..], b[1..], c[1..]);
      }
      TextLessIsTotal(b[1..], c[1..]);
    }
  }

  predicate Less(a: Id, b: Id) {
    TextLess(a.text, b.text)
  }

  // ---- the specification --------------------------------------------------------------------

  predicate LinksInside(ids: seq<Id>, links: seq<Id>) {
    forall p :: p in links ==> p in ids
  }

  /** The parent links of every id lead to one of the ids. */
  predicate Closed(ids: seq<Id>, parents: map<Id, seq<Id>>) {
    && (forall c :: c in ids ==> c in parents)
    && (forall c :: c in ids ==> LinksInside(ids, parents[c]))
  }

  predicate ChildOf(parents: map<Id, seq<Id>>, c: Id, p: Id) {
    c in parents && p in parents[c]
  }

  /** Going down: each entry is a parent of the next. */
  predicate Descends(ids: seq<Id>, parents: map<Id, seq<Id>>, path: seq<Id>) {
    && (forall k :: 0 <= k < |path| ==> path[k] in ids)
    && (forall k, m :: 0 <= k < |path| - 1 && m == k + 1 ==> ChildOf(parents, path[m], path[k]))
  }

  predicate Cycle(ids: seq<Id>, parents: map<Id, seq<Id>>, path: seq<Id>) {
    |path| >= 2 && path[0] == path[|path| - 1] && Descends(ids, parents, path)
  }

  ghost predicate Acyclic(ids: seq<Id>, parents: map<Id, seq<Id>>) {
    forall path :: !Cycle(ids, parents, path)
  }

  /** Every child of `p` is among `placed`. */
  ghost predicate Available(ids: seq<Id>, parents: map<Id, seq<Id>>, placed: seq<Id>, p: Id) {
    p in ids && p !in placed && forall c :: c in ids && ChildOf(parents, c, p) ==> c in placed
  }

  /** Each entry was available where it stands, and nothing smaller was. */
  ghost predicate Greedy(ids: seq<Id>, parents: map<Id, seq<Id>>, order: seq<Id>) {
    && (forall i :: 0 <= i < |order| ==> Available(ids, parents, order[..i], order[i]))
    && (forall i, p :: 0 <= i < |order| && Available(ids, parents, order[..i], p) ==> !Less(p, order[i]))
  }

  ghost predicate IsOrder(ids: seq<Id>, parents: map<Id, seq<Id>>, order: seq<Id>) {
    |order| == |ids| && Greedy(ids, parents, order)
  }

  // ---- what the specification means -----------------------------------------------------------

  lemma GreedyIsDistinct(ids: seq<Id>, parents: map<Id, seq<Id>>, order: seq<Id>)
    requires Greedy(ids, parents, order)
    ensures Distinct(order)
    ensures forall x :: x in order ==> x in ids
  {
    forall i, j | 0 <= i < j < |order|
      ensures order[i] != order[j]
    {
      assert Available(ids, parents, order[..j], order[j]);
      assert order[..j][i] == order[i];
    }
    forall x | x in order
      ensures x in ids
    {
      var i :| 0 <= i < |order| && order[i] == x;
      assert Available(ids, parents, order[..i], order[i]);
    }
  }

  function ToSet<T>(s: seq<T>): set<T> {
    set x | x in s
  }

  lemma {:induction false} DistinctSize<T>(s: seq<T>)
    requires Distinct(s)
    ensures |ToSet(s)| == |s|
  {
    if s != [] {
      DistinctSize(s[1..]);
      assert ToSet(s) == {s[0]} + ToSet(s[1..]);
      assert s[0] !in ToSet(s[1..]);
    } else {
      assert ToSet(s) == {};
    }
  }

  /** A complete order holds exactly the given ids. */
  lemma OrderCoversIds(ids: seq<Id>, parents: map<Id, seq<Id>>, order: seq<Id>)
    requires Distinct(ids) && IsOrder(ids, parents, order)
    ensures Distinct(order)
    ensures ToSet(order) == ToSet(ids)
  {
    GreedyIsDistinct(ids, parents, order);
    DistinctSize(ids);
    DistinctSize(order);
    SubsetSize(ToSet(order), ToSet(ids));
  }

  /** In the order, every card stands before each of its parents. */
  lemma ChildBeforeParent(ids: seq<Id>, parents: map<Id, seq<Id>>, order: seq<Id>, i: nat, j: nat)
    requires Distinct(ids) && IsOrder(ids, parents, order)
    requires i < |order| && j < |order|
    requires ChildOf(parents, order[i], order[j])
    ensures i < j
  {
    OrderCoversIds(ids, parents, order);
    assert order[i] in ToSet(order);
    assert Available(ids, parents, order[..j], order[j]);
    assert order[i] in order[..j];
    var k :| 0 <= k < j && order[..j][k] == order[i];
    assert order[k] == order[i];
  }

  /** The greedy order is unique: its length and the text order leave no freedom. */
  lemma {:induction false} GreedyIsUnique(ids: seq<Id>, parents: map<Id, seq<Id>>, a: seq<Id>, b: seq<Id>, n: nat)
    requires Greedy(ids, parents, a) && Greedy(ids, parents, b)
    requires n <= |a| && n <= |b|
    ensures a[..n] == b[..n]
  {
    if n > 0 {
      GreedyIsUnique(ids, parents, a, b, n - 1);
      assert Available(ids, parents, a[..n - 1], a[n - 1]);
      assert Available(ids, parents, b[..n - 1], b[n - 1]);
      assert !Less(a[n - 1], b[n - 1]) && !Less(b[n - 1], a[n - 1]);
      TextLessIsTotal(a[n - 1].text, b[n - 1].text);
      assert a[..n] == a[..n - 1] + [a[n - 1]];
      assert b[..n] == b[..n - 1] + [b[n - 1]];
    }
  }

  /** Where a complete order exists there is no cycle: going down a path means moving left in the order. */
  lemma {:induction false} OrderRulesOutCycles(ids: seq<Id>, parents: map<Id, seq<Id>>, order: seq<Id>)
    requires Distinct(ids) && IsOrder(ids, parents, order)
    ensures Acyclic(ids, parents)
  {
    forall path
      ensures !Cycle(ids, parents, path)
    {
      if Cycle(ids, parents, path) {
        OrderCoversIds(ids, parents, order);
        PathMovesLeft(ids, parents, order, path, |path| - 1);
      }
    }
  }

  lemma {:induction false} PathMovesLeft(ids: seq<Id>, parents: map<Id, seq<Id>>, order: seq<Id>, path: seq<Id>, n: nat)
    requires Distinct(ids) && IsOrder(ids, parents, order)
    requires Descends(ids, parents, path) && 0 < n < |path|
    ensures path[n] != path[0]
    ensures forall i, j :: 0 <= i < |order| && 0 <= j < |order| && order[i] == path[n] && order[j] == path[0] ==> i < j
  {
    OrderCoversIds(ids, parents, order);
    assert path[0] in ToSet(order) && path[n] in ToSet(order) && path[n - 1] in ToSet(order);
    assert ChildOf(parents, path[n], path[n - 1]);
    var m :| 0 <= m < |order| && order[m] == path[n - 1];
    if n > 1 {
      PathMovesLeft(ids, parents, order, path, n - 1);
    }
    forall i, j | 0 <= i < |order| && 0 <= j < |order| && order[i] == path[n] && order[j] == path[0]
      ensures i < j
    {
      ChildBeforeParent(ids, parents, order, i, m);
    }
    var i :| 0 <= i < |order| && order[i] == path[n];
    if path[n] == path[0] {
      assert false;
    }
  }

  // ---- counting the children that are not yet placed -----------------------------------------

  /** How many parent links to `p` leave ids outside `placed`, repeated links counted each time. */
  ghost function Pending(ids: seq<Id>, parents: map<Id, seq<Id>>, placed: set<Id>, p: Id): nat
    requires forall c :: c in ids ==> c in parents
  {
    if ids == [] then 0
    else (if ids[0] in placed then 0 else multiset(parents[ids[0]])[p]) + Pending(ids[1..], parents, placed, p)
  }

  lemma {:induction false} PendingZero(ids: seq<Id>, parents: map<Id, seq<Id>>, placed: set<Id>, p: Id)
    requires forall c :: c in ids ==> c in parents
    ensures Pending(ids, parents, placed, p) == 0 <==> forall c :: c in ids && p in parents[c] ==> c in placed
  {
    if ids != [] {
      PendingZero(ids[1..], parents, placed, p);
      assert forall c :: c in ids <==> c == ids[0] || c in ids[1..];
      assert p in parents[ids[0]] <==> multiset(parents[ids[0]])[p] > 0;
    }
  }

  lemma {:induction false} PendingPlace(ids: seq<Id>, parents: map<Id, seq<Id>>, placed: set<Id>, x: Id, p: Id)
    requires forall c :: c in ids ==> c in parents
    requires Distinct(ids) && x !in placed
    ensures x in ids ==>
      Pending(ids, parents, placed, p) == Pending(ids, parents, placed + {x}, p) + multiset(parents[x])[p]
    ensures x !in ids ==> Pending(ids, parents, placed, p) == Pending(ids, parents, placed + {x}, p)
  {
    if ids != [] {
      PendingPlace(ids[1..], parents, placed, x, p);
      assert x in ids <==> x == ids[0] || x in ids[1..];
    }
  }

  lemma {:induction false} PendingSplit(ids: seq<Id>, parents: map<Id, seq<Id>>, p: Id, n: nat)
    requires forall c :: c in ids ==> c in parents
    requires n < |ids|
    ensures Pending(ids[..n + 1], parents, {}, p) == Pending(ids[..n], parents, {}, p) + multiset(parents[ids[n]])[p]
  {
    if n > 0 {
      PendingSplit(ids[1..], parents, p, n - 1);
      assert ids[..n + 1][1..] == ids[1..][..n];
      assert ids[..n][1..] == ids[1..][..n - 1];
    } else {
      assert ids[..1] == [ids[0]] && ids[..0] == [];
    }
  }

  // ---- a stuck remainder holds a cycle -------------------------------------------------------

  ghost predicate HasChildLeft(ids: seq<Id>, parents: map<Id, seq<Id>>, placed: seq<Id>, p: Id) {
    exists c :: c in ids && c !in placed && ChildOf(parents, c, p)
  }

  /** Every id outside `placed` has a child outside `placed`: nothing can be taken next. */
  ghost predicate Stuck(ids: seq<Id>, parents: map<Id, seq<Id>>, placed: seq<Id>) {
    forall p {:trigger HasChildLeft(ids, parents, placed, p)} ::
      p in ids && p !in placed ==> HasChildLeft(ids, parents, placed, p)
  }

  lemma {:induction false} WalkDown(ids: seq<Id>, parents: map<Id, seq<Id>>, placed: seq<Id>, start: Id, n: nat)
    returns (path: seq<Id>)
    requires Stuck(ids, parents, placed) && start in ids && start !in placed
    ensures |path| == n + 1 && Descends(ids, parents, path)
    ensures path[n] !in placed
  {
    if n == 0 {
      path := [start];
    } else {
      var before := WalkDown(ids, parents, placed, start, n - 1);
      assert HasChildLeft(ids, parents, placed, before[n - 1]);
      var c :| c in ids && c !in placed && ChildOf(parents, c, before[n - 1]);
      path := before + [c];
    }
  }

  lemma StuckMeansCycle(ids: seq<Id>, parents: map<Id, seq<Id>>, placed: seq<Id>, start: Id)
    requires Distinct(ids)
    requires Stuck(ids, parents, placed) && start in ids && start !in placed
    ensures !Acyclic(ids, parents)
  {
    var path := WalkDown(ids, parents, placed, start, |ids|);
    if Distinct(path) {
      DistinctSize(path);
      DistinctSize(ids);
      SubsetSize(ToSet(path), ToSet(ids));
    } else {
      var i, j :| 0 <= i < j < |path| && path[i] == path[j];
      var loop := path[i..j + 1];
      assert Cycle(ids, parents, loop);
    }
  }

  // ---- the algorithm -------------------------------------------------------------------------

  /** Takes the smallest id out of a nonempty heap, kept here as a set. */
  method PopSmallest(ready: set<Id>) returns (least: Id, rest: set<Id>)
    requires ready != {}
    ensures least in ready && rest == ready - {least}
    ensures forall x :: x in ready ==> !Less(x, least)
  {
    least :| least in ready;
    TextLessIsTotal(least.text, least.text);
    var left := ready - {least};
    while left != {}
      invariant least in ready && left <= ready
      invariant forall x :: x in ready - left ==> !Less(x, least)
      decreases left
    {
      var x :| x in left;
      if Less(x, least) {
        forall y | y in ready - left
          ensures !Less(y, x)
        {
          TextLessIsTransitive(least.text, y.text, x.text);
        }
        least := x;
      }
      TextLessIsTotal(x.text, x.text);
      left := left - {x};
    }
    rest := ready - {least};
  }

  /** Adds one card's parent links to the counts, unless a link leaves the set. */
  method CountLinks(links: seq<Id>, before: map<Id, nat>) returns (inside: bool, count: map<Id, nat>)
    ensures inside <==> forall p :: p in links ==> p in before
    ensures count.Keys == before.Keys
    ensures inside ==> forall p :: p in before ==> count[p] == before[p] + multiset(links)[p]
  {
    count := before;
    var k := 0;
    while k < |links|
      invariant 0 <= k <= |links| && count.Keys == before.Keys
      invariant forall p :: p in links[..k] ==> p in before
      invariant forall p :: p in before ==> count[p] == before[p] + multiset(links[..k])[p]
    {
      if links[k] !in before {
        return false, count;
      }
      assert links[..k + 1] == links[..k] + [links[k]];
      count := count[links[k] := count[links[k]] + 1];
      k := k + 1;
    }
    assert links[..k] == links;
    inside := true;
  }

  /** The number of parent links that point at each id. */
  method CountChildren(ids: seq<Id>, parents: map<Id, seq<Id>>) returns (closed: bool, count: map<Id, nat>)
    requires Distinct(ids) && forall c :: c in ids ==> c in parents
    ensures closed <==> Closed(ids, parents)
    ensures closed ==> count.Keys == ToSet(ids)
    ensures closed ==> forall p :: p in ids ==> count[p] == Pending(ids, parents, {}, p)
  {
    count := map p | p in ids :: 0;
    var i := 0;
    while i < |ids|
      invariant 0 <= i <= |ids| && count.Keys == ToSet(ids)
      invariant forall c :: c in ids[..i] ==> LinksInside(ids, parents[c])
      invariant forall p :: p in ids ==> count[p] == Pending(ids[..i], parents, {}, p)
    {
      var inside, next := CountLinks(parents[ids[i]], count);
      if !inside {
        return false, map[];
      }
      forall p | p in ids
        ensures next[p] == Pending(ids[..i + 1], parents, {}, p)
      {
        PendingSplit(ids, parents, p, i);
      }
      assert ids[..i + 1] == ids[..i] + [ids[i]];
      count, i := next, i + 1;
    }
    assert ids[..i] == ids;
    closed := true;
  }

  /** The count of every id is the number of links to it from ids outside `placed`. */
  ghost predicate Counts(ids: seq<Id>, parents: map<Id, seq<Id>>, placed: seq<Id>, count: map<Id, nat>) {
    && count.Keys == ToSet(ids)
    && (forall c :: c in ids ==> c in parents)
    && (forall p :: p in ids ==> count[p] == Pending(ids, parents, ToSet(placed), p))
  }

  /** The heap holds exactly the ids that can be taken next. */
  ghost predicate HoldsAvailable(ids: seq<Id>, placed: seq<Id>, count: map<Id, nat>, ready: set<Id>)
    requires count.Keys == ToSet(ids)
  {
    && (forall p :: p in ready <==> p in ids && p !in placed && count[p] == 0)
    && (forall p :: p in placed ==> p in ids && count[p] == 0)
  }

  lemma AvailableIsZero(ids: seq<Id>, parents: map<Id, seq<Id>>, placed: seq<Id>, count: map<Id, nat>, p: Id)
    requires Counts(ids, parents, placed, count) && p in ids && p !in placed
    ensures Available(ids, parents, placed, p) <==> count[p] == 0
  {
    PendingZero(ids, parents, ToSet(placed), p);
  }

  /** Taking the smallest available id extends a greedy order. */
  lemma GreedyExtends(ids: seq<Id>, parents: map<Id, seq<Id>>, order: seq<Id>, count: map<Id, nat>, ready: set<Id>,
                      x: Id)
    requires Counts(ids, parents, order, count) && HoldsAvailable(ids, order, count, ready)
    requires Greedy(ids, parents, order)
    requires x in ready && forall y :: y in ready ==> !Less(y, x)
    ensures Greedy(ids, parents, order + [x])
  {
    var next := order + [x];
    AvailableIsZero(ids, parents, order, count, x);
    forall i | 0 <= i < |next|
      ensures Available(ids, parents, next[..i], next[i])
    {
      assert next[..i] == order[..i];
      if i == |order| {
        assert order[..i] == order;
      } else {
        assert next[i] == order[i];
      }
    }
    forall i, p | 0 <= i < |next| && Available(ids, parents, next[..i], p)
      ensures !Less(p, next[i])
    {
      assert next[..i] == order[..i];
      if i == |order| {
        assert order[..i] == order;
        AvailableIsZero(ids, parents, order, count, p);
      } else {
        assert next[i] == order[i];
      }
    }
  }

  /** The counts while the links of a taken id are being followed; `links` are still to follow. */
  ghost predicate Owes(ids: seq<Id>, parents: map<Id, seq<Id>>, placed: set<Id>, links: seq<Id>, count: map<Id, nat>) {
    && count.Keys == ToSet(ids)
    && (forall c :: c in ids ==> c in parents)
    && (forall p :: p in ids ==> count[p] == Pending(ids, parents, placed, p) + multiset(links)[p])
  }

  lemma TakenOwesItsLinks(ids: seq<Id>, parents: map<Id, seq<Id>>, before: seq<Id>, x: Id, count: map<Id, nat>)
    requires Distinct(ids) && Counts(ids, parents, before, count) && x in ids && x !in before
    ensures Owes(ids, parents, ToSet(before + [x]), parents[x], count)
  {
    assert ToSet(before + [x]) == ToSet(before) + {x};
    forall p | p in ids
      ensures count[p] == Pending(ids, parents, ToSet(before + [x]), p) + multiset(parents[x])[p]
    {
      PendingPlace(ids, parents, ToSet(before), x, p);
    }
  }

  lemma LinkFollowed(ids: seq<Id>, parents: map<Id, seq<Id>>, placed: set<Id>, links: seq<Id>, count: map<Id, nat>)
    requires Owes(ids, parents, placed, links, count) && links != [] && links[0] in ids
    ensures count[links[0]] > 0
    ensures Owes(ids, parents, placed, links[1..], count[links[0] := count[links[0]] - 1])
  {
    assert links == [links[0]] + links[1..];
    assert multiset(links) == multiset{links[0]} + multiset(links[1..]);
  }

  /** Follows the links of the id just taken, and puts what became available into the heap. */
  method ReleaseParents(ids: seq<Id>, parents: map<Id, seq<Id>>, ghost before: seq<Id>, x: Id,
                        count0: map<Id, nat>, ready0: set<Id>)
    returns (count: map<Id, nat>, ready: set<Id>)
    requires Distinct(ids) && Closed(ids, parents)
    requires Counts(ids, parents, before, count0) && HoldsAvailable(ids, before, count0, ready0 + {x})
    requires x in ids && x !in before && x !in ready0 && count0[x] == 0
    ensures Counts(ids, parents, before + [x], count)
    ensures HoldsAvailable(ids, before + [x], count, ready)
  {
    count, ready := count0, ready0;
    var links := parents[x];
    TakenOwesItsLinks(ids, parents, before, x, count);
    while links != []
      invariant LinksInside(ids, links)
      invariant Owes(ids, parents, ToSet(before + [x]), links, count)
      invariant HoldsAvailable(ids, before + [x], count, ready)
      decreases |links|
    {
      var p := links[0];
      LinkFollowed(ids, parents, ToSet(before + [x]), links, count);
      count := count[p := count[p] - 1];
      if count[p] == 0 {
        ready := ready + {p};
      }
      links := links[1..];
    }
  }

  method OrderIds(ids: seq<Id>, parents: map<Id, seq<Id>>) returns (r: Option<seq<Id>>)
    requires Distinct(ids) && forall c :: c in ids ==> c in parents
    ensures r.Some? <==> Closed(ids, parents) && Acyclic(ids, parents)
    ensures r.Some? ==> IsOrder(ids, parents, r.value)
  {
    var closed, count := CountChildren(ids, parents);
    if !closed {
      return None;
    }
    var ready := set p | p in ids && count[p] == 0;
    var order: seq<Id> := [];
    assert ToSet(order) == {};
    while ready != {}
      invariant Counts(ids, parents, order, count) && HoldsAvailable(ids, order, count, ready)
      invariant Greedy(ids, parents, order)
      decreases ToSet(ids) - ToSet(order)
    {
      var x, rest := PopSmallest(ready);
      GreedyExtends(ids, parents, order, count, ready, x);
      assert rest + {x} == ready;
      count, ready := ReleaseParents(ids, parents, order, x, count, rest);
      assert x in ToSet(ids) - ToSet(order);
      assert ToSet(order + [x]) == ToSet(order) + {x};
      order := order + [x];
    }
    if |order| != |ids| {
      StuckRemainder(ids, parents, order, count);
      return None;
    }
    OrderRulesOutCycles(ids, parents, order);
    r := Some(order);
  }

  lemma BlockedByChild(ids: seq<Id>, parents: map<Id, seq<Id>>, order: seq<Id>, count: map<Id, nat>, p: Id)
    requires Counts(ids, parents, order, count) && p in ids && p !in order && count[p] != 0
    ensures HasChildLeft(ids, parents, order, p)
  {
    AvailableIsZero(ids, parents, order, count, p);
  }

  lemma StuckRemainder(ids: seq<Id>, parents: map<Id, seq<Id>>, order: seq<Id>, count: map<Id, nat>)
    requires Distinct(ids) && Counts(ids, parents, order, count) && HoldsAvailable(ids, order, count, {})
    requires |order| != |ids| && Greedy(ids, parents, order)
    ensures !Acyclic(ids, parents)
  {
    OrderIsShort(ids, parents, order);
    var start :| start in ToSet(ids) - ToSet(order);
    forall p | p in ids && p !in order
      ensures HasChildLeft(ids, parents, order, p)
    {
      BlockedByChild(ids, parents, order, count, p);
    }
    StuckMeansCycle(ids, parents, order, start);
  }

  lemma OrderIsShort(ids: seq<Id>, parents: map<Id, seq<Id>>, order: seq<Id>)
    requires Distinct(ids) && Greedy(ids, parents, order) && |order| != |ids|
    ensures ToSet(ids) - ToSet(order) != {}
  {
    GreedyIsDistinct(ids, parents, order);
    DistinctSize(ids);
    DistinctSize(order);
    SubsetSize(ToSet(order), ToSet(ids));
  }

  // ---- from listed cards to an order of cards --------------------------------------------------

  /** The listing names every card by a distinct id. */
  predicate Listed(tasks: seq<Task>) {
    && (forall i :: 0 <= i < |tasks| ==> tasks[i].id.Some?)
    && (forall i, j :: 0 <= i < j < |tasks| ==> tasks[i].id != tasks[j].id)
  }

  /** The detail view of `id` was fetched and is well formed. */
  predicate Shown(details: map<Id, Detail>, id: Id) {
    && id in details
    && details[id].shownId == Some(id)
    && details[id].parents.Some?
    && details[id].runsListed
  }

  predicate AllShown(tasks: seq<Task>, details: map<Id, Detail>) {
    forall i :: 0 <= i < |tasks| && tasks[i].id.Some? ==> Shown(details, tasks[i].id.value)
  }

  function IdsOf(tasks: seq<Task>): (ids: seq<Id>)
    requires forall i :: 0 <= i < |tasks| ==> tasks[i].id.Some?
    ensures |ids| == |tasks| && forall i :: 0 <= i < |tasks| ==> ids[i] == tasks[i].id.value
  {
    seq(|tasks|, i requires 0 <= i < |tasks| => tasks[i].id.value)
  }

  function ParentsOf(tasks: seq<Task>, details: map<Id, Detail>): map<Id, seq<Id>>
    requires Listed(tasks) && AllShown(tasks, details)
  {
    map id | id in IdsOf(tasks) && Shown(details, id) :: details[id].parents.value
  }

  lemma {:induction false} DistinctMultiset<T>(s: seq<T>)
    requires Distinct(s)
    ensures multiset(s) == multiset(ToSet(s))
  {
    if s != [] {
      DistinctMultiset(s[1..]);
      assert s == [s[0]] + s[1..];
      assert ToSet(s) == {s[0]} + ToSet(s[1..]);
      assert s[0] !in ToSet(s[1..]);
    }
  }

  /** Two listings of the same length, one inside the other, hold the same cards. */
  lemma SameCards(a: seq<Task>, b: seq<Task>)
    requires Listed(a) && Listed(b) && |a| == |b|
    requires forall t :: t in a ==> t in b
    ensures multiset(a) == multiset(b)
  {
    assert Distinct(a) && Distinct(b);
    DistinctSize(a);
    DistinctSize(b);
    SubsetSize(ToSet(a), ToSet(b));
    DistinctMultiset(a);
    DistinctMultiset(b);
  }

  method ChildFirstTaskOrder(tasks: seq<Task>, details: map<Id, Detail>) returns (r: Option<seq<Task>>)
    ensures r.Some? <==>
      (&& Listed(tasks)
       && AllShown(tasks, details)
       && Closed(IdsOf(tasks), ParentsOf(tasks, details))
       && Acyclic(IdsOf(tasks), ParentsOf(tasks, details)))
    ensures r.Some? ==>
      (&& Listed(r.value)
       && multiset(r.value) == multiset(tasks)
       && IsOrder(IdsOf(tasks), ParentsOf(tasks, details), IdsOf(r.value)))
  {
    var byId: map<Id, Task> := map[];
    var n := 0;
    while n < |tasks|
      invariant 0 <= n <= |tasks| && Listed(tasks[..n])
      invariant forall id :: id in byId <==> exists i :: 0 <= i < n && tasks[i].id == Some(id)
      invariant forall i :: 0 <= i < n ==> byId[tasks[i].id.value] == tasks[i]
    {
      if tasks[n].id.None? || tasks[n].id.value in byId {
        return None;
      }
      byId := byId[tasks[n].id.value := tasks[n]];
      n := n + 1;
    }
    assert tasks[..n] == tasks;
    n := 0;
    while n < |tasks|
      invariant 0 <= n <= |tasks| && AllShown(tasks[..n], details)
    {
      if !Shown(details, tasks[n].id.value) {
        return None;
      }
      n := n + 1;
    }
    assert tasks[..n] == tasks;
    var ids := IdsOf(tasks);
    var parents := ParentsOf(tasks, details);
    var order := OrderIds(ids, parents);
    if order.None? {
      return None;
    }
    OrderCoversIds(ids, parents, order.value);
    forall i | 0 <= i < |order.value|
      ensures order.value[i] in byId && byId[order.value[i]].id == Some(order.value[i]) && byId[order.value[i]] in tasks
    {
      assert order.value[i] in ToSet(order.value);
      assert order.value[i] in ids;
    }
    var cards := seq(|order.value|, i requires 0 <= i < |order.value| => byId[order.value[i]]);
    assert IdsOf(cards) == order.value;
    SameCards(cards, tasks);
    r := Some(cards);
  }

  /** For cards in the returned order, a card listed as a parent comes after all its children. */
  lemma ArchivingIsChildFirst(tasks: seq<Task>, details: map<Id, Detail>, order: seq<Task>, i: nat, j: nat)
    requires Listed(tasks) && AllShown(tasks, details) && Listed(order)
    requires IsOrder(IdsOf(tasks), ParentsOf(tasks, details), IdsOf(order))
    requires i < |order| && j < |order|
    requires order[i].id.value in details && details[order[i].id.value].parents.Some?
    requires order[j].id.value in details[order[i].id.value].parents.value
    ensures i < j
  {
    var ids, parents := IdsOf(tasks), ParentsOf(tasks, details);
    OrderCoversIds(ids, parents, IdsOf(order));
    assert IdsOf(order)[i] in ToSet(ids);
    assert exists m :: 0 <= m < |ids| && ids[m] == order[i].id.value;
    ChildBeforeParent(ids, parents, IdsOf(order), i, j);
  }
}
