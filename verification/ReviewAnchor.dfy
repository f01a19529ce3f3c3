/**
 * The accepted review head: filed once, confirmed by every later tick, and the head all
 * cards behind the review stand on. It moves exactly where a tick could not read it and
 * passed the review at another head.
 */
module ReviewAnchor {
  import opened Common
  import opened CommitGraph
  import opened ExecutionRecords
  import opened PhaseDefinitions
  import opened PhaseAuthority
  import opened PhaseSchedule
  import opened ScheduleRuns
  import Recovery

  // ---- one review ---------------------------------------------------------------------------

  predicate OneReview(run: Run) {
    var workers := Workers(run.phases);
    forall i, j :: 0 <= i < j < |workers| && FilesHead(run, workers[i]) ==> !FilesHead(run, workers[j])
  }

  predicate IsReview(run: Run, i: nat) {
    i < |Workers(run.phases)| && FilesHead(run, Workers(run.phases)[i])
  }

  predicate DistinctRoles(phases: seq<Phase>) {
    forall i, j :: 0 <= i < j < |phases| && phases[i].role != WORKER ==> phases[i].role != phases[j].role
  }

  lemma {:induction false} WorkerRolesDistinct(phases: seq<Phase>)
    requires DistinctRoles(phases)
    ensures DistinctRoles(Workers(phases))
    ensures forall p :: p in Workers(phases) ==> p in phases
  {
    if phases != [] {
      WorkerRolesDistinct(phases[1..]);
      assert forall p :: p in phases[1..] ==> p in phases && (phases[0].role != WORKER ==> p.role != phases[0].role);
    }
  }

  /** Valid definitions give the review role to one worker at most. */
  lemma ValidHasOneReview(run: Run)
    requires ValidDefinitions(run.phases)
    ensures OneReview(run)
  {
    WorkerRolesDistinct(run.phases);
  }

  // ---- how far a tick gets ------------------------------------------------------------------

  /** Where no review is passed the file stays. */
  lemma NoReviewKeepsFiled(run: Run, executions: Executions, view: View, t: Tick, r: Reach)
    requires r.at <= |Workers(run.phases)|
    requires forall k :: r.at <= k < ReachFrom(run, executions, view, t, r).at ==> !IsReview(run, k)
    ensures ReachFrom(run, executions, view, t, r).filed == r.filed
    decreases |Workers(run.phases)| - r.at
  {
    var workers := Workers(run.phases);
    if ReachFrom(run, executions, view, t, r) != r {
      var next := Onward(run, executions, workers[r.at], r);
      assert !IsReview(run, r.at);
      NoReviewKeepsFiled(run, executions, view, t, next);
    }
  }

  /** The moment the tick comes to phase `i`. */
  lemma ComesTo(run: Run, executions: Executions, view: View, t: Tick, r: Reach, i: nat) returns (here: Reach)
    requires Passed(run, t.history, executions, view, r.at, r.head)
    requires r.at <= i <= ReachFrom(run, executions, view, t, r).at
    ensures here.at == i && Passed(run, t.history, executions, view, i, here.head)
    ensures ReachFrom(run, executions, view, t, here) == ReachFrom(run, executions, view, t, r)
    ensures (forall k :: r.at <= k < i ==> !IsReview(run, k)) ==> here.filed == r.filed
    decreases i - r.at
  {
    var workers := Workers(run.phases);
    if i == r.at {
      here := r;
    } else {
      PassedOneMore(run, t.history, executions, view, r.at, r.head, workers[r.at].key);
      here := ComesTo(run, executions, view, t, Onward(run, executions, workers[r.at], r), i);
      if forall k :: r.at <= k < i ==> !IsReview(run, k) {
        assert !IsReview(run, r.at);
      }
    }
  }

  lemma ComesToFromStart(run: Run, executions: Executions, view: View, t: Tick, filed: Option<Commit>, i: nat)
    returns (here: Reach)
    requires i <= Reached(run, executions, view, t, filed).at
    ensures here.at == i && Passed(run, t.history, executions, view, i, here.head)
    ensures ReachFrom(run, executions, view, t, here) == Reached(run, executions, view, t, filed)
    ensures (forall k :: 0 <= k < i ==> !IsReview(run, k)) ==> here.filed == filed
  {
    assert Workers(run.phases)[..0] == [];
    here := ComesTo(run, executions, view, t, Reach(0, run.base, filed), i);
  }

  /**
   * A tick that comes to a review gets past it if and only if it is done, it counts, and the
   * head on file is its own, or none can be read and its own can be written.
   */
  lemma ReviewPassedExactly(run: Run, executions: Executions, view: View, t: Tick, filed: Option<Commit>, i: nat)
    requires OneReview(run) && IsReview(run, i) && i <= Reached(run, executions, view, t, filed).at
    ensures var review := Workers(run.phases)[i];
      var head := ChainHead(run, t.history, executions, Workers(run.phases)[..i]);
      && head.Some?
      && (i < Reached(run, executions, view, t, filed).at <==>
            && DoneInView(view, review.key)
            && Accepted(run, executions, review, view[review.key], t, head.value)
            && Confirms(t, filed, HeadOf(executions, review.key).value))
  {
    var here := ComesToFromStart(run, executions, view, t, filed, i);
    assert forall k :: 0 <= k < i ==> !IsReview(run, k);
  }

  /** What is on file after a tick that got past the review. */
  lemma PassedReviewIsFiled(run: Run, executions: Executions, view: View, t: Tick, filed: Option<Commit>, i: nat)
    requires OneReview(run) && IsReview(run, i) && i < Reached(run, executions, view, t, filed).at
    ensures HeadOf(executions, Workers(run.phases)[i].key).Some?
    ensures Reached(run, executions, view, t, filed).filed == HeadOf(executions, Workers(run.phases)[i].key)
    ensures Confirms(t, filed, HeadOf(executions, Workers(run.phases)[i].key).value)
  {
    var here := ComesToFromStart(run, executions, view, t, filed, i);
    assert forall k :: 0 <= k < i ==> !IsReview(run, k);
    var next := Onward(run, executions, Workers(run.phases)[i], here);
    assert forall k :: i < k < |Workers(run.phases)| ==> !IsReview(run, k);
    NoReviewKeepsFiled(run, executions, view, t, next);
  }

  lemma NoReviewPassedKeepsFiled(run: Run, executions: Executions, view: View, t: Tick, filed: Option<Commit>)
    requires forall k :: 0 <= k < Reached(run, executions, view, t, filed).at ==> !IsReview(run, k)
    ensures Reached(run, executions, view, t, filed).filed == filed
  {
    NoReviewKeepsFiled(run, executions, view, t, Reach(0, run.base, filed));
  }

  /** A review that counts at a head other than the filed one: no card is made or retired, and the file stays. */
  lemma ConflictStopsTick(run: Run, executions: Executions, view: View, t: Tick, filed: Option<Commit>,
                          cards: seq<Card>)
    requires OneReview(run) && t.authority == Held
    requires StopsInConflict(run, executions, view, t, Reached(run, executions, view, t, filed))
    ensures TickCards(run, executions, view, t, filed, cards) == cards
    ensures TickFiled(run, executions, view, t, filed) == filed
  {
    var at := Reached(run, executions, view, t, filed).at;
    assert IsReview(run, at);
    NoReviewPassedKeepsFiled(run, executions, view, t, filed);
  }

  // ---- the filed head over runs -------------------------------------------------------------

  /** The tick could not read the file and passed the review at another head. */
  ghost predicate Rewrites(run: Run, s: State, e: Event) {
    && e.Ticked? && e.t.authority == Held && !e.t.filedReadable
    && exists i :: 0 <= i < Reached(run, s.executions, e.view, e.t, s.filed).at && IsReview(run, i)
                   && HeadOf(s.executions, Workers(run.phases)[i].key) != s.filed
  }

  lemma FiledHeadMovesExactly(run: Run, s: State, e: Event, n: State)
    requires OneReview(run) && Follows(run, s, e, n) && s.filed.Some?
    ensures n.filed != s.filed <==> Rewrites(run, s, e)
    ensures n.filed.Some?
  {
    if e.Ticked? && e.t.authority == Held {
      if i :| 0 <= i < Reached(run, s.executions, e.view, e.t, s.filed).at && IsReview(run, i) {
        PassedReviewIsFiled(run, s.executions, e.view, e.t, s.filed, i);
        forall k | 0 <= k < Reached(run, s.executions, e.view, e.t, s.filed).at && IsReview(run, k)
          ensures k == i
        {
        }
      } else {
        NoReviewPassedKeepsFiled(run, s.executions, e.view, e.t, s.filed);
      }
    }
  }

  lemma EventMovesExactly(run: Run, states: seq<State>, events: seq<Event>, k: nat)
    requires OneReview(run) && IsRun(run, states, events) && k < |events| && states[k].filed.Some?
    ensures states[k + 1].filed != states[k].filed <==> Rewrites(run, states[k], events[k])
  {
    assert Follows(run, states[k], events[k], states[k + 1]);
    FiledHeadMovesExactly(run, states[k], events[k], states[k + 1]);
  }

  /** Over any run: once filed, the accepted head stays for good if and only if no tick rewrites it unread. */
  lemma FiledHeadStaysExactly(run: Run, states: seq<State>, events: seq<Event>, m: nat)
    requires ValidDefinitions(run.phases) && IsRun(run, states, events) && m < |states| && states[m].filed.Some?
    ensures (forall n :: m <= n < |states| ==> states[n].filed == states[m].filed)
       <==> (forall n :: m <= n < |events| ==> !Rewrites(run, states[n], events[n]))
  {
    ValidHasOneReview(run);
    if forall n :: m <= n < |states| ==> states[n].filed == states[m].filed {
      forall n | m <= n < |events| ensures !Rewrites(run, states[n], events[n]) {
        EventMovesExactly(run, states, events, n);
      }
    }
    if forall n :: m <= n < |events| ==> !Rewrites(run, states[n], events[n]) {
      forall n | m <= n < |states| ensures states[n].filed == states[m].filed {
        UnrewrittenStays(run, states, events, m, n);
      }
    }
  }

  /** One state after the other holds the same head. */
  ghost predicate NeverMoves(states: seq<State>, m: nat, n: nat) {
    forall i, j :: m <= i < n && j == i + 1 < |states| && states[i].filed.Some? ==> states[j].filed == states[i].filed
  }

  lemma {:induction false} NeverMovingStays(states: seq<State>, m: nat, n: nat)
    requires m <= n < |states| && states[m].filed.Some? && NeverMoves(states, m, n)
    ensures states[n].filed == states[m].filed
  {
    if m < n {
      NeverMovingStays(states, m, n - 1);
    }
  }

  lemma UnrewrittenStays(run: Run, states: seq<State>, events: seq<Event>, m: nat, n: nat)
    requires OneReview(run) && IsRun(run, states, events) && m <= n < |states| && states[m].filed.Some?
    requires forall k :: m <= k < n ==> !Rewrites(run, states[k], events[k])
    ensures states[n].filed == states[m].filed
  {
    forall i, j | m <= i < n && j == i + 1 < |states| && states[i].filed.Some?
      ensures states[j].filed == states[i].filed
    {
      EventMovesExactly(run, states, events, i);
    }
    NeverMovingStays(states, m, n);
  }

  // ---- when such a tick can come --------------------------------------------------------------

  /** The first `n` phases are done on the board, match what their cards report, and count in one chain. */
  ghost predicate AcceptedUpTo(run: Run, h: History, executions: Executions, cards: seq<Card>, n: nat) {
    var workers := Workers(run.phases);
    && n <= |workers|
    && ChainHead(run, h, executions, workers[..n]).Some?
    && forall j :: 0 <= j < n ==> DoneOnBoard(cards, workers[j].key) && ReportMatches(executions, cards, workers[j].key)
  }

  predicate ReportMatches(executions: Executions, cards: seq<Card>, key: string) {
    && key in executions && Current(cards, key).Some?
    && (executions[key].contract.kind == WorkerResult ==>
          Current(cards, key).value.reported == ResultOf(executions[key]))
  }

  /** The review is accepted, with all before it, at a head that is not the one on file. */
  ghost predicate AcceptedElsewhere(run: Run, h: History, executions: Executions, cards: seq<Card>,
                                    filed: Option<Commit>) {
    exists i: nat :: IsReview(run, i) && AcceptedUpTo(run, h, executions, cards, i + 1)
                && HeadOf(executions, Workers(run.phases)[i].key) != filed
  }

  lemma TickAccepts(run: Run, executions: Executions, view: View, t: Tick, filed: Option<Commit>, cards: seq<Card>,
                    n: nat)
    requires Sees(view, cards, t.listed) && n <= Reached(run, executions, view, t, filed).at
    ensures AcceptedUpTo(run, t.history, executions, cards, n)
  {
    var workers := Workers(run.phases);
    var here := ComesToFromStart(run, executions, view, t, filed, n);
    forall j | 0 <= j < n
      ensures DoneOnBoard(cards, workers[j].key) && ReportMatches(executions, cards, workers[j].key)
    {
      var before := ComesToFromStart(run, executions, view, t, filed, j);
      assert view != map[];
    }
  }

  /** A tick that sees the whole board, cannot read the file, can write it, and finds the delivery complete. */
  function UnreadingTick(h: History): Tick {
    UnlistedTick(true, Recovery.Readable(0), 0).(listed := true, history := h, filedReadable := false,
                                                 delivered := true, finishVerified := true)
  }

  lemma AcceptedIsPassed(run: Run, executions: Executions, view: View, h: History, cards: seq<Card>, r: Reach, n: nat)
    requires AcceptedUpTo(run, h, executions, cards, n) && Sees(view, cards, true) && r.at <= n
    requires ChainHead(run, h, executions, Workers(run.phases)[..r.at]) == Some(r.head)
    ensures ReachFrom(run, executions, view, UnreadingTick(h), r).at >= n
    decreases n - r.at
  {
    var workers := Workers(run.phases);
    if r.at < n {
      assert workers[..n][r.at] == workers[r.at] && workers[..n][..r.at] == workers[..r.at];
      ChainCountsEveryPhase(run, h, executions, workers[..n], r.at);
      ChainStep(run, h, executions, workers, r.at, r.head);
      assert DoneOnBoard(cards, workers[r.at].key) && ReportMatches(executions, cards, workers[r.at].key);
      AcceptedIsPassed(run, executions, view, h, cards, Onward(run, executions, workers[r.at], r), n);
    }
  }

  lemma SomeView(cards: seq<Card>) returns (view: View)
    ensures Sees(view, cards, true)
  {
    var keys := set c | c in cards && c.status != Archived :: c.key;
    assert forall c :: c in cards && c.status != Archived ==> HasCard(cards, c.key);
    view := map key | key in keys :: Current(cards, key).value;
    assert forall key :: HasCard(cards, key) ==> key in keys;
  }

  /**
   * In a state with a filed head, some tick over this history moves it if and only if the
   * review is done and counts at another head, behind phases that are all done and count.
   */
  lemma FiledHeadMayMoveExactly(run: Run, h: History, executions: Executions, cards: seq<Card>, filed: Option<Commit>)
    requires ValidDefinitions(run.phases) && filed.Some?
    ensures (exists t: Tick, view: View ::
               t.history == h && Sees(view, cards, t.listed) && TickFiled(run, executions, view, t, filed) != filed)
       <==> AcceptedElsewhere(run, h, executions, cards, filed)
  {
    ValidHasOneReview(run);
    if t: Tick, view: View :|
      t.history == h && Sees(view, cards, t.listed) && TickFiled(run, executions, view, t, filed) != filed
    {
      MovedIsAcceptedElsewhere(run, executions, view, t, filed, cards);
    }
    if AcceptedElsewhere(run, h, executions, cards, filed) {
      var t, view := UnreadingTickMoves(run, h, executions, cards, filed);
      assert t.history == h && Sees(view, cards, t.listed) && TickFiled(run, executions, view, t, filed) != filed;
    }
  }

  lemma UnreadingTickMoves(run: Run, h: History, executions: Executions, cards: seq<Card>, filed: Option<Commit>)
    returns (t: Tick, view: View)
    requires OneReview(run) && filed.Some? && AcceptedElsewhere(run, h, executions, cards, filed)
    ensures t.history == h && t.listed && Sees(view, cards, true) && TickFiled(run, executions, view, t, filed) != filed
  {
    var i: nat :| IsReview(run, i) && AcceptedUpTo(run, h, executions, cards, i + 1)
                  && HeadOf(executions, Workers(run.phases)[i].key) != filed;
    t := UnreadingTick(h);
    view := SomeView(cards);
    assert Workers(run.phases)[..0] == [];
    AcceptedIsPassed(run, executions, view, h, cards, Reach(0, run.base, filed), i + 1);
    PassedReviewIsFiled(run, executions, view, t, filed, i);
  }

  lemma MovedIsAcceptedElsewhere(run: Run, executions: Executions, view: View, t: Tick, filed: Option<Commit>,
                                 cards: seq<Card>)
    requires OneReview(run) && Sees(view, cards, t.listed) && TickFiled(run, executions, view, t, filed) != filed
    ensures AcceptedElsewhere(run, t.history, executions, cards, filed)
  {
    var far := Reached(run, executions, view, t, filed);
    if i: nat :| i < far.at && IsReview(run, i) {
      TickAccepts(run, executions, view, t, filed, cards, i + 1);
      PassedReviewIsFiled(run, executions, view, t, filed, i);
      assert HeadOf(executions, Workers(run.phases)[i].key) != filed;
    } else {
      NoReviewPassedKeepsFiled(run, executions, view, t, filed);
    }
  }

  // ---- what the cards behind the review stand on ----------------------------------------------

  lemma NewCardStandsOnAnchor(run: Run, s: State, e: Event, n: State, i: nat, p: nat)
    requires ValidDefinitions(run.phases) && Follows(run, s, e, n) && |n.cards| > |s.cards| && IsReview(run, i)
    requires i < p < |Workers(run.phases)| && n.cards[|s.cards|].key == Workers(run.phases)[p].key
    ensures n.filed.Some? && n.filed == HeadOf(s.executions, Workers(run.phases)[i].key)
  {
    ValidHasOneReview(run);
    DistinctWorkers(run);
    NewCardIsEarned(run, s, e, n);
    assert Reached(run, s.executions, e.view, e.t, s.filed).at == p;
    PassedReviewIsFiled(run, s.executions, e.view, e.t, s.filed, i);
  }

  /**
   * Over any run in which no tick rewrites the file unread: whenever a card of a phase behind
   * the review came, the review counted at the very head that is on file now.
   */
  lemma CardsBehindReviewStandOnAnchor(run: Run, states: seq<State>, events: seq<Event>, n: nat, c: nat, i: nat, p: nat)
    requires ValidDefinitions(run.phases) && IsRun(run, states, events) && n < |states| && c < |states[n].cards|
    requires forall k :: 0 <= k < n ==> !Rewrites(run, states[k], events[k])
    requires IsReview(run, i) && i < p < |Workers(run.phases)| && states[n].cards[c].key == Workers(run.phases)[p].key
    ensures states[n].filed.Some?
    ensures exists m ::
      && 0 <= m < n && CameIn(states, m, c, states[n].cards[c]) && Earned(run, states[m], events[m], states[n].cards[c])
      && HeadOf(states[m].executions, Workers(run.phases)[i].key) == states[n].filed
  {
    ValidHasOneReview(run);
    EveryCardWasEarned(run, states, events, n, c);
    var m :|
      0 <= m < n && CameIn(states, m, c, states[n].cards[c]) && Earned(run, states[m], events[m], states[n].cards[c]);
    assert Follows(run, states[m], events[m], states[m + 1]);
    NewCardStandsOnAnchor(run, states[m], events[m], states[m + 1], i, p);
    UnrewrittenStays(run, states, events, m + 1, n);
  }

  // ---- a run that moves the filed head ----------------------------------------------------------

  /** A review "a" before a phase "b", in a run with a manifest. */
  function ReviewRun(): Run {
    var a := Phase("a", "a", "", false, false, 1, 0, "worker", REVIEW);
    Run("tick", "todo", "plan", 0, "branch", [a, a.(key := "b", role := WORKER)], Commit(0), true)
  }

  lemma ReviewFirst()
    ensures var r := ReviewRun(); Workers(r.phases) == r.phases && ValidDefinitions(r.phases) && IsReview(r, 0)
  {
    var r := ReviewRun();
    assert Workers(r.phases[1..]) == r.phases[1..];
  }

  function TwoCommits(): History {
    map[Commit(0) := [], Commit(1) := [Commit(0)]]
  }

  function CountedAgain(): Attempt {
    NewAttempt(2, Some(0)).(status := Exited, cleanup := Confirmed, exitCode := Some(0))
  }

  /** The review after its first attempt, and after an operator had it run again. */
  function ReviewedOnce(): Execution {
    FirstPhase([CountedAttempt()])
  }

  function ReviewedTwice(): Execution {
    FirstPhase([CountedAttempt(), CountedAgain()]).(results :=
      map[1 := Promoted(1, "tick", "todo", "a", "success", Commit(0)),
          2 := Promoted(2, "tick", "todo", "a", "success", Commit(1))])
  }

  function ReviewTick(readable: bool, create: CreateReply): Tick {
    AnsweringTick(create).(history := TwoCommits(), filedReadable := readable)
  }

  lemma CountsOnce()
    ensures Counts(ReviewRun(), TwoCommits(), map["a" := ReviewedOnce()], "a", Commit(0))
    ensures HeadOf(map["a" := ReviewedOnce()], "a") == Some(Commit(0))
  {
    assert Last(ReviewedOnce().record) == CountedAttempt();
  }

  lemma CountsTwice()
    ensures Counts(ReviewRun(), TwoCommits(), map["a" := ReviewedTwice()], "a", Commit(0))
    ensures HeadOf(map["a" := ReviewedTwice()], "a") == Some(Commit(1))
  {
    assert Last(ReviewedTwice().record) == CountedAgain();
    assert Ancestor(TwoCommits(), Commit(0), Commit(0));
    assert Ancestor(TwoCommits(), Commit(0), Commit(1));
  }

  lemma ViewOfOne(done: Card)
    requires done == FIRST.(status := Done)
    ensures Sees(map["a" := done], [done], true)
  {
    forall key ensures key in map["a" := done] <==> HasCard([done], key)
      ensures key == "a" ==> Current([done], key) == Some(done)
    {
      assert done in [done];
      assert [done][..0] == [];
    }
  }

  lemma ViewOfTwo(done: Card)
    requires done == FIRST.(status := Done)
    ensures Sees(map["a" := done, "b" := SECOND], [done, SECOND], true)
  {
    ViewOfOne(done);
    var cards := [done, SECOND];
    assert cards[..1] == [done];
    assert Current([done], "b").None? by { assert !HasCard([done], "b"); }
    forall key ensures key in map["a" := done, "b" := SECOND] <==> HasCard(cards, key)
      ensures key == "a" ==> Current(cards, key) == Some(done)
      ensures key == "b" ==> Current(cards, key) == Some(SECOND)
    {
      assert done in cards && SECOND in cards;
      assert Sees(map["a" := done], [done], true);
    }
  }

  lemma FilingFollows(done: Card, once: Executions, t: Tick)
    requires done == FIRST.(status := Done) && once == map["a" := ReviewedOnce()] && t == ReviewTick(true, Landed(1))
    ensures Follows(ReviewRun(), State(once, [done], None), Ticked(t, map["a" := done]),
                    State(once, [done, SECOND], Some(Commit(0))))
  {
    ReviewFirst();
    CountsOnce();
    ViewOfOne(done);
    var run, view: View := ReviewRun(), map["a" := done];
    var far := Reach(1, Commit(0), Some(Commit(0)));
    assert Onward(run, once, run.phases[0], Reach(0, run.base, None)) == far;
    assert ReachFrom(run, once, view, t, far) == far;
    assert Reached(run, once, view, t, None) == far;
    assert !Published([done], "b", 1);
    assert TickCards(run, once, view, t, None, [done]) == [done, SECOND];
  }

  lemma RewritingFollows(done: Card, twice: Executions, t: Tick)
    requires done == FIRST.(status := Done) && twice == map["a" := ReviewedTwice()]
    requires t == ReviewTick(false, Unavailable)
    ensures Follows(ReviewRun(), State(twice, [done, SECOND], Some(Commit(0))),
                    Ticked(t, map["a" := done, "b" := SECOND]),
                    State(twice, [done, SECOND], Some(Commit(1))))
  {
    ReviewFirst();
    CountsTwice();
    ViewOfTwo(done);
    var run, view: View := ReviewRun(), map["a" := done, "b" := SECOND];
    var far := Reach(1, Commit(1), Some(Commit(1)));
    assert Onward(run, twice, run.phases[0], Reach(0, run.base, Some(Commit(0)))) == far;
    assert ReachFrom(run, twice, view, t, far) == far;
    assert Reached(run, twice, view, t, Some(Commit(0))) == far;
    assert TickCards(run, twice, view, t, Some(Commit(0)), [done, SECOND]) == [done, SECOND];
  }

  lemma FirstReviewTick() returns (states: seq<State>, events: seq<Event>)
    ensures IsRun(ReviewRun(), states, events) && |events| == 1
    ensures states[1].cards == [FIRST] && states[1].filed.None?
  {
    ReviewFirst();
    var t := ReviewTick(true, Landed(0));
    var s, n := State(map[], [], None), State(map[], [FIRST], None);
    assert TickCards(ReviewRun(), map[], map[], t, None, []) == [FIRST];
    RunStarts(ReviewRun(), s);
    RunGoesOn(ReviewRun(), [s], [], Ticked(t, map[]), n);
    states, events := [s] + [n], [] + [Ticked(t, map[])];
  }

  lemma FilingTick(past: seq<State>, before: seq<Event>) returns (states: seq<State>, events: seq<Event>)
    requires IsRun(ReviewRun(), past, before)
    requires past[|before|].cards == [FIRST] && past[|before|].filed.None?
    ensures IsRun(ReviewRun(), states, events) && |events| == |before| + 2
    ensures states[|events|].cards == [FIRST.(status := Done), SECOND] && states[|events|].filed == Some(Commit(0))
  {
    var done, t := FIRST.(status := Done), ReviewTick(true, Landed(1));
    var once := map["a" := ReviewedOnce()];
    FilingFollows(done, once, t);
    var s, e := State(once, [done], None), Ticked(t, map["a" := done]);
    var n := State(once, [done, SECOND], Some(Commit(0)));
    states, events := RunGoesOnTwice(ReviewRun(), past, before, s, e, n);
  }

  lemma RewritingTick(past: seq<State>, before: seq<Event>) returns (states: seq<State>, events: seq<Event>)
    requires IsRun(ReviewRun(), past, before)
    requires past[|before|].cards == [FIRST.(status := Done), SECOND] && past[|before|].filed == Some(Commit(0))
    ensures IsRun(ReviewRun(), states, events) && |events| == |before| + 2 && states[..|past|] == past
    ensures states[|events|].filed == Some(Commit(1)) && states[|events|].cards == past[|before|].cards
  {
    var done, t := FIRST.(status := Done), ReviewTick(false, Unavailable);
    var twice := map["a" := ReviewedTwice()];
    RewritingFollows(done, twice, t);
    var s, e := State(twice, [done, SECOND], Some(Commit(0))), Ticked(t, map["a" := done, "b" := SECOND]);
    var n := State(twice, [done, SECOND], Some(Commit(1)));
    states, events := RunGoesOnTwice(ReviewRun(), past, before, s, e, n);
  }

  /**
   * A review counts, its head is filed, and the next phase has its card. An operator has the
   * review run again, it ends at another head, and a tick cannot read the file: the filed head
   * moves under the card that stands on the first one.
   */
  lemma UnreadFileMovesFiledHead() returns (run: Run, states: seq<State>, events: seq<Event>)
    ensures ValidDefinitions(run.phases) && IsRun(run, states, events) && |events| == 5
    ensures states[3].filed == Some(Commit(0)) && states[5].filed == Some(Commit(1))
    ensures SECOND in states[3].cards && SECOND in states[5].cards
  {
    run := ReviewRun();
    ReviewFirst();
    var first, e := FirstReviewTick();
    var second, f := FilingTick(first, e);
    states, events := RewritingTick(second, f);
    assert states[3] == states[..4][3] == second[3];
  }

  /** With the file readable the same tick is a conflict. */
  lemma ReadFileStopsTick(done: Card)
    requires done == FIRST.(status := Done)
    ensures var t, view := ReviewTick(true, Unavailable), map["a" := done, "b" := SECOND];
      var executions := map["a" := ReviewedTwice()];
      StopsInConflict(ReviewRun(), executions, view, t, Reached(ReviewRun(), executions, view, t, Some(Commit(0))))
  {
    ReviewFirst();
    CountsTwice();
  }
}
