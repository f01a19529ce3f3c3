/**
 * What holds over every run of scheduling ticks: every card was created behind phases that
 * all counted, and the phases with cards are a beginning of the worker phases exactly as long
 * as no tick took the first phase's cards away without seeing what stands behind it.
 */
module ScheduleRuns {
  import opened Common
  import opened CommitGraph
  import opened ExecutionRecords
  import opened Recovery
  import opened PhaseDefinitions
  import opened PhaseAuthority
  import opened PhaseSchedule

  type Executions = map<string, Execution>

  // ---- the invariant ------------------------------------------------------------------------

  ghost predicate CardsArePrefix(run: Run, cards: seq<Card>) {
    var workers := Workers(run.phases);
    forall i, j :: 0 <= i < j < |workers| && HasCard(cards, workers[j].key) ==> HasCard(cards, workers[i].key)
  }

  predicate IsAuthorized(run: Run, h: History, executions: Executions, key: string) {
    key in executions && Authorized(run, h, key, executions[key])
  }

  // ---- one tick -----------------------------------------------------------------------------

  /** A change to the cards of one phase shows only in that phase. */
  lemma OtherPhasesUntouched(before: seq<Card>, after: seq<Card>, key: string, other: string)
    requires |before| <= |after| <= |before| + 1 && OnlyArchived(before, after[..|before|], key)
    requires |after| == |before| + 1 ==> after[|before|].key == key
    requires other != key
    ensures HasCard(after, other) <==> HasCard(before, other)
  {
    if HasCard(before, other) {
      var c :| c in before && Live(c, other);
      var i :| 0 <= i < |before| && before[i] == c;
      assert after[..|before|][i] == c && after[i] == c;
    }
    if HasCard(after, other) {
      var c :| c in after && Live(c, other);
      var i :| 0 <= i < |after| && after[i] == c;
      assert i < |before| && after[..|before|][i] == c;
      assert before[i] == c;
    }
  }

  lemma OtherWorkersUntouched(workers: seq<Phase>, at: nat, before: seq<Card>, after: seq<Card>)
    requires DistinctKeys(workers) && at < |workers|
    requires |before| <= |after| <= |before| + 1 && OnlyArchived(before, after[..|before|], workers[at].key)
    requires |after| == |before| + 1 ==> after[|before|].key == workers[at].key
    ensures forall j :: 0 <= j < |workers| && j != at ==>
      (HasCard(after, workers[j].key) <==> HasCard(before, workers[j].key))
  {
    forall j | 0 <= j < |workers| && j != at
      ensures HasCard(after, workers[j].key) <==> HasCard(before, workers[j].key)
    {
      OtherPhasesUntouched(before, after, workers[at].key, workers[j].key);
    }
  }

  lemma DistinctWorkers(run: Run)
    requires DistinctKeys(run.phases)
    ensures DistinctKeys(Workers(run.phases))
  {
    WorkerKeysDistinct(run.phases);
  }

  /** A tick that could list the board keeps the prefix, whatever the attempts and the operator did before. */
  lemma ListedTickKeepsPrefix(run: Run, executions: Executions, view: View, t: Tick, at: nat, head: Commit,
                              before: seq<Card>, after: seq<Card>)
    requires DistinctKeys(run.phases) && CardsArePrefix(run, before)
    requires Sees(view, before, true)
    requires AtMostOneCard(run, executions, view, t, at, head, before, after) && after != before
    ensures CardsArePrefix(run, after)
    ensures forall j :: at < j < |Workers(run.phases)| ==> !HasCard(after, Workers(run.phases)[j].key)
  {
    DistinctWorkers(run);
    var workers := Workers(run.phases);
    OtherWorkersUntouched(workers, at, before, after);
    assert forall j :: 0 <= j < at ==> HasCard(before, workers[j].key);
  }

  // ---- what a new card means --------------------------------------------------------------------

  /** The resulting head on file for a phase. */
  function HeadOf(executions: Executions, key: string): Option<Commit> {
    if key in executions && ResultOf(executions[key]).Some? then Some(ResultOf(executions[key]).value.head) else None
  }

  function HeadAfter(run: Run, executions: Executions, phases: seq<Phase>): Option<Commit> {
    if phases == [] then Some(run.base) else HeadOf(executions, phases[|phases| - 1].key)
  }

  /** Phase by phase: each counts, and starts where the one before it ended, the first at the registered base. */
  ghost predicate Unbroken(run: Run, h: History, executions: Executions, phases: seq<Phase>) {
    forall i :: 0 <= i < |phases| ==>
      && IsAuthorized(run, h, executions, phases[i].key)
      && HeadAfter(run, executions, phases[..i]) == Some(executions[phases[i].key].contract.base)
  }

  lemma {:induction false} ChainIsUnbroken(run: Run, h: History, executions: Executions, phases: seq<Phase>)
    requires ChainHead(run, h, executions, phases).Some?
    ensures Unbroken(run, h, executions, phases)
    ensures HeadAfter(run, executions, phases) == ChainHead(run, h, executions, phases)
  {
    if phases != [] {
      var n := |phases| - 1;
      ChainIsUnbroken(run, h, executions, phases[..n]);
      forall i | 0 <= i < |phases|
        ensures IsAuthorized(run, h, executions, phases[i].key)
        ensures HeadAfter(run, executions, phases[..i]) == Some(executions[phases[i].key].contract.base)
      {
        if i < n {
          assert phases[..n][i] == phases[i] && phases[..n][..i] == phases[..i];
        }
      }
    }
  }

  /**
   * A card of generation one is only ever created for a phase whose predecessors are all done,
   * all count, and link base to head without a gap up to the commit the worktree stands at.
   */
  lemma FirstCardIsEarned(run: Run, executions: Executions, view: View, t: Tick, at: nat, head: Commit,
                          before: seq<Card>, after: seq<Card>)
    requires forall k :: k in executions ==> ValidRecord(executions[k].record)
    requires AtMostOneCard(run, executions, view, t, at, head, before, after)
    requires |after| == |before| + 1 && after[|before|].generation == 1
    ensures at < |Workers(run.phases)| && after[|before|].key == Workers(run.phases)[at].key
    ensures forall j :: 0 <= j < at ==>
      Workers(run.phases)[j].key in view && view[Workers(run.phases)[j].key].status == Done
    ensures Unbroken(run, t.history, executions, Workers(run.phases)[..at])
    ensures t.head.Some? && t.head == HeadAfter(run, executions, Workers(run.phases)[..at])
    ensures after[..|before|] == before
  {
    ChainIsUnbroken(run, t.history, executions, Workers(run.phases)[..at]);
  }

  /** Any other card is the next attempt of a phase that failed cleanly, within the generation limit. */
  lemma ReissueIsBounded(run: Run, executions: Executions, view: View, t: Tick, at: nat, head: Commit,
                         before: seq<Card>, after: seq<Card>)
    requires forall k :: k in executions ==> ValidRecord(executions[k].record)
    requires AtMostOneCard(run, executions, view, t, at, head, before, after)
    requires |after| == |before| + 1 && after[|before|].generation != 1
    ensures var c := after[|before|];
      && c.key in executions && 2 <= c.generation <= MAX_GENERATIONS
      && c.generation == |executions[c.key].record.attempts| + 1
      && Resolved(Last(executions[c.key].record))
      && !HasCard(after[..|before|], c.key)
  {
    var c := after[|before|];
    var e := executions[c.key];
    ApprovalIsBound(e.record, e.intent, t.peers, t.evidence, t.event, MAX_GENERATIONS);
  }

  /** The head a card is created with is the one the predecessor proof computes for its phase. */
  lemma CardHeadIsPredecessorHead(run: Run, executions: Executions, view: View, t: Tick, at: nat, head: Commit,
                                  before: seq<Card>, after: seq<Card>)
    requires DistinctKeys(run.phases)
    requires AtMostOneCard(run, executions, view, t, at, head, before, after) && at < |Workers(run.phases)|
    ensures var workers := Workers(run.phases);
      ChainHead(run, t.history, executions, PhaseAuthority.Before(workers, Some(workers[at].key))) == Some(head)
  {
    DistinctWorkers(run);
  }

  // ---- a tick that could not list the board ---------------------------------------------------

  /** A phase after the first already has a card. */
  ghost predicate Beyond(run: Run, cards: seq<Card>) {
    exists j :: 0 < j < |Workers(run.phases)| && HasCard(cards, Workers(run.phases)[j].key)
  }

  /** The retirement archives every live card of the phase, confirmed or not. */
  predicate Clears(cards: seq<Card>, key: string, reply: RetireReply) {
    && reply.Archives? && !SomeoneWorking(cards, key)
    && forall c :: c in cards && Live(c, key) ==> reply.all || c.id in reply.ids
  }

  /** The tick retires the phase's cards, and no new one of it lands. */
  predicate TakesAway(e: Execution, key: string, t: Tick, cards: seq<Card>) {
    && FailedCleanly(e) && t.approvalRan && Clears(cards, key, t.retire)
    && (|| VerdictOf(e, t).reason == GenerationExhausted
        || (VerdictOf(e, t).Approves() && (t.retire.all ==> !Lands(t.create))))
  }

  /** The tick leaves the first phase without a card while a later one has its own. */
  ghost predicate OpensGap(run: Run, executions: Executions, t: Tick, cards: seq<Card>) {
    var workers := Workers(run.phases);
    && t.authority == Held && Beyond(run, cards)
    && workers[0].key in executions && TakesAway(executions[workers[0].key], workers[0].key, t, cards)
  }

  lemma ClearsExactly(cards: seq<Card>, key: string, reply: RetireReply)
    requires reply.Archives? && !SomeoneWorking(cards, key)
    ensures HasCard(Retired(cards, key, reply), key) <==> !Clears(cards, key, reply)
  {
    var after := Retired(cards, key, reply);
    if HasCard(after, key) {
      var c :| c in after && Live(c, key);
      var i :| 0 <= i < |after| && after[i] == c;
      assert cards[i] in cards && cards[i] == c;
    }
    if c :| c in cards && Live(c, key) && !(reply.all || c.id in reply.ids) {
      var i :| 0 <= i < |cards| && cards[i] == c;
      assert after[i] == c;
    }
  }

  lemma ResumedTakesAwayExactly(e: Execution, key: string, parent: Option<nat>, t: Tick, cards: seq<Card>)
    requires FailedCleanly(e) && HasCard(cards, key)
    ensures HasCard(Resumed(e, key, parent, t, cards), key) <==> !TakesAway(e, key, t, cards)
  {
    if t.retire.Archives? && !SomeoneWorking(cards, key) {
      ClearsExactly(cards, key, t.retire);
      var rest := Retired(cards, key, t.retire);
      var generation := Last(e.record).generation + 1;
      if !HasCard(rest, key) && Lands(t.create) {
        assert !Published(rest, key, generation);
        var card := Card(t.create.id, key, generation, Open, parent, None);
        assert card in Created(rest, key, generation, parent, t.create);
      }
    }
  }

  /** Where only the first phase's cards changed, the prefix depends on it keeping one. */
  lemma PrefixAfterFirst(run: Run, before: seq<Card>, after: seq<Card>)
    requires CardsArePrefix(run, before) && Workers(run.phases) != []
    requires forall j :: 0 < j < |Workers(run.phases)| ==>
      (HasCard(after, Workers(run.phases)[j].key) <==> HasCard(before, Workers(run.phases)[j].key))
    ensures CardsArePrefix(run, after) <==> (Beyond(run, before) ==> HasCard(after, Workers(run.phases)[0].key))
  {
  }

  /**
   * A tick that could not list the board breaks the prefix exactly when it takes the cards of
   * the first phase away, that phase having failed cleanly, while a later phase has a card.
   */
  lemma UnlistedTickOpensGapExactly(run: Run, executions: Executions, t: Tick, filed: Option<Commit>, before: seq<Card>)
    requires DistinctKeys(run.phases) && CardsArePrefix(run, before)
    ensures CardsArePrefix(run, TickCards(run, executions, map[], t, filed, before)) <==>
      !OpensGap(run, executions, t, before)
  {
    var workers := Workers(run.phases);
    var after := TickCards(run, executions, map[], t, filed, before);
    if workers != [] && t.authority == Held {
      DistinctWorkers(run);
      TickIsAtMostOneCard(run, executions, map[], t, filed, before);
      var key := workers[0].key;
      assert after == Advanced(run, executions, workers[0], None, None, t, run.base, before);
      assert before[..|before|] == before;
      OtherWorkersUntouched(workers, 0, before, after);
      PrefixAfterFirst(run, before, after);
      if Beyond(run, before) {
        assert HasCard(before, key);
        if OrdinaryFlow(executions, key) {
          StillThere(before, after, key);
        } else if FailedCleanly(executions[key]) {
          ResumedTakesAwayExactly(executions[key], key, None, t, before);
        }
      }
    }
  }

  lemma StillThere(before: seq<Card>, after: seq<Card>, key: string)
    requires |before| <= |after| && after[..|before|] == before && HasCard(before, key)
    ensures HasCard(after, key)
  {
    var c :| c in before && Live(c, key);
    assert c in after[..|before|];
  }

  // ---- when such a tick can come ----------------------------------------------------------------

  /** The tick's own approval of this attempt, still open. */
  predicate StandingApproval(e: Execution) {
    && e.record.attempts != []
    && e.intent.Some? && e.intent.value.status == Approved && e.intent.value.approver == Approver.Tick
    && e.intent.value.preview.mode == Resume
    && e.intent.value.preview.generation == Last(e.record).generation
    && !Carried(e.record, e.intent.value.preview.event)
  }

  /** The tick has approved this attempt less often than the policy allows. */
  predicate BudgetLeft(e: Execution) {
    e.record.attempts != [] &&
    ((&& e.intent.Some? && e.intent.value.approver == Approver.Tick
      && e.intent.value.preview.generation == Last(e.record).generation) ==>
       e.intent.value.reissues < MAX_REISSUES)
  }

  /** The policy may retire the cards of the phase. */
  predicate Replaceable(e: Execution) {
    && FailedCleanly(e) && Last(e.record).status != Blocked
    && (|| Last(e.record).generation >= MAX_GENERATIONS
        || (!OperatorOpen(e.intent) && (StandingApproval(e) || BudgetLeft(e))))
  }

  predicate Retires(v: Verdict) {
    v.Approves() || v.reason == GenerationExhausted
  }

  lemma PolicyRetiresExactly(e: Execution)
    requires FailedCleanly(e)
    ensures Replaceable(e) <==>
      exists peers: bool, evidence: Evidence, event: EventId ::
        Retires(AutoApprove(e.record, e.intent, peers, evidence, event, MAX_GENERATIONS).0)
  {
    if Replaceable(e) {
      var evidence := Readable(if StandingApproval(e) then e.intent.value.preview.work else 0);
      assert Retires(AutoApprove(e.record, e.intent, true, evidence, 0, MAX_GENERATIONS).0);
    }
  }

  /** A tick in which the board cannot be listed, all cards of the phase are archived, and no new one is published. */
  function UnlistedTick(peers: bool, evidence: Evidence, event: EventId): Tick {
    Tick.Tick(Held, false, map[], None, true, peers, evidence, event, false, false, true, Unavailable,
              Archives(true, {}),
              true, true, false, false, false, false)
  }

  /** A later phase has a card, the first one's last attempt may be replaced, and nobody works on its cards. */
  ghost predicate GapCanOpen(run: Run, executions: Executions, cards: seq<Card>) {
    && Beyond(run, cards)
    && var first := Workers(run.phases)[0].key;
       first in executions && Replaceable(executions[first]) && !SomeoneWorking(cards, first)
  }

  lemma GapNeedsReplaceable(run: Run, executions: Executions, t: Tick, cards: seq<Card>)
    requires OpensGap(run, executions, t, cards)
    ensures GapCanOpen(run, executions, cards)
  {
    var e := executions[Workers(run.phases)[0].key];
    assert Retires(AutoApprove(e.record, e.intent, t.peers, t.evidence, t.event, MAX_GENERATIONS).0);
    PolicyRetiresExactly(e);
  }

  lemma ReplaceableOpensGap(run: Run, executions: Executions, cards: seq<Card>) returns (t: Tick)
    requires GapCanOpen(run, executions, cards)
    ensures !t.listed && OpensGap(run, executions, t, cards)
  {
    var e := executions[Workers(run.phases)[0].key];
    PolicyRetiresExactly(e);
    var peers: bool, evidence: Evidence, event: EventId :|
      Retires(AutoApprove(e.record, e.intent, peers, evidence, event, MAX_GENERATIONS).0);
    t := UnlistedTick(peers, evidence, event);
    assert Retires(VerdictOf(e, t));
  }

  /**
   * From cards that are a prefix, some tick that cannot list the board breaks the prefix exactly
   * when a later phase has a card, the policy may replace the first phase's last attempt, and
   * nobody works on a card of the first phase.
   */
  lemma UnlistedTickMayOpenGapExactly(run: Run, executions: Executions, filed: Option<Commit>, before: seq<Card>)
    requires DistinctKeys(run.phases) && CardsArePrefix(run, before)
    ensures (exists t: Tick :: !t.listed && !CardsArePrefix(run, TickCards(run, executions, map[], t, filed, before)))
       <==> GapCanOpen(run, executions, before)
  {
    if t: Tick :| !t.listed && !CardsArePrefix(run, TickCards(run, executions, map[], t, filed, before)) {
      UnlistedTickOpensGapExactly(run, executions, t, filed, before);
      GapNeedsReplaceable(run, executions, t, before);
    }
    if GapCanOpen(run, executions, before) {
      var t := ReplaceableOpensGap(run, executions, before);
      UnlistedTickOpensGapExactly(run, executions, t, filed, before);
      assert !t.listed && !CardsArePrefix(run, TickCards(run, executions, map[], t, filed, before));
    }
  }

  /** Once the prefix is broken, a tick that sees the board refuses the order and changes no card. */
  lemma BrokenOrderStopsListedTicks(run: Run, executions: Executions, view: View, t: Tick, filed: Option<Commit>,
                                    before: seq<Card>)
    requires Sees(view, before, true) && !CardsArePrefix(run, before)
    ensures TickCards(run, executions, view, t, filed, before) == before
  {
    var workers := Workers(run.phases);
    ReachedIsPassed(run, executions, view, t, filed);
    var at := Reached(run, executions, view, t, filed).at;
    var i, j :| 0 <= i < j < |workers| && HasCard(before, workers[j].key) && !HasCard(before, workers[i].key);
    assert at <= i;
    assert LaterCard(workers, at, view);
  }

  // ---- runs ---------------------------------------------------------------------------------

  /** The attempts, the board, and the accepted review head on file. */
  datatype State = State(executions: Executions, cards: seq<Card>, filed: Option<Commit>)

  /** A tick and what it saw, or anything the workers, the daemons and the operator do. */
  datatype Event = Ticked(t: Tick, view: View) | Elsewhere

  /** Cards move on; none is created, archived or given to another phase. */
  predicate MovedOn(before: seq<Card>, after: seq<Card>) {
    && |after| == |before|
    && forall i :: 0 <= i < |before| ==>
         && after[i] == before[i].(status := after[i].status, reported := after[i].reported)
         && (after[i].status == Archived <==> before[i].status == Archived)
  }

  /** Outside the ticks the executions may change in any way. */
  ghost predicate Follows(run: Run, s: State, e: Event, n: State) {
    match e
    case Ticked(t, view) =>
      && Sees(view, s.cards, t.listed) && OnlyIntents(s.executions, n.executions)
      && n.cards == TickCards(run, s.executions, view, t, s.filed, s.cards)
      && n.filed == TickFiled(run, s.executions, view, t, s.filed)
    case Elsewhere => MovedOn(s.cards, n.cards) && n.filed == s.filed
  }

  ghost predicate IsRun(run: Run, states: seq<State>, events: seq<Event>) {
    && |states| == |events| + 1 && states[0].cards == [] && states[0].filed.None?
    && forall i :: 0 <= i < |events| ==> Follows(run, states[i], events[i], states[i + 1])
  }

  lemma RunStarts(run: Run, s: State)
    requires s.cards == [] && s.filed.None?
    ensures IsRun(run, [s], [])
  {
  }

  /** One more event. */
  lemma RunGoesOn(run: Run, states: seq<State>, events: seq<Event>, e: Event, n: State)
    requires IsRun(run, states, events) && Follows(run, states[|events|], e, n)
    ensures IsRun(run, states + [n], events + [e])
  {
    var all, done := states + [n], events + [e];
    forall i | 0 <= i < |done|
      ensures Follows(run, all[i], done[i], all[i + 1])
    {
      assert all[i] == states[i];
      assert i < |events| ==> done[i] == events[i] && all[i + 1] == states[i + 1];
    }
  }

  /** Something elsewhere, and then a tick. */
  lemma RunGoesOnTwice(run: Run, past: seq<State>, before: seq<Event>, s: State, e: Event, n: State)
    returns (states: seq<State>, events: seq<Event>)
    requires IsRun(run, past, before) && Follows(run, s, e, n)
    requires MovedOn(past[|before|].cards, s.cards) && s.filed == past[|before|].filed
    ensures IsRun(run, states, events) && states == past + [s, n] && events == before + [Elsewhere, e]
  {
    RunGoesOn(run, past, before, Elsewhere, s);
    RunGoesOn(run, past + [s], before + [Elsewhere], e, n);
    states, events := past + [s] + [n], before + [Elsewhere] + [e];
  }

  ghost predicate OpensGapAt(run: Run, s: State, e: Event) {
    e.Ticked? && !e.t.listed && OpensGap(run, s.executions, e.t, s.cards)
  }

  lemma MovingOnKeepsCards(before: seq<Card>, after: seq<Card>, key: string)
    requires MovedOn(before, after)
    ensures HasCard(after, key) <==> HasCard(before, key)
  {
    if HasCard(before, key) {
      var c :| c in before && Live(c, key);
      var i :| 0 <= i < |before| && before[i] == c;
      assert after[i] in after;
    }
    if HasCard(after, key) {
      var c :| c in after && Live(c, key);
      var i :| 0 <= i < |after| && after[i] == c;
      assert before[i] in before;
    }
  }

  lemma StepKeepsPrefixExactly(run: Run, s: State, e: Event, n: State)
    requires DistinctKeys(run.phases) && CardsArePrefix(run, s.cards) && Follows(run, s, e, n)
    ensures CardsArePrefix(run, n.cards) <==> !OpensGapAt(run, s, e)
  {
    if e.Elsewhere? {
      forall key ensures HasCard(n.cards, key) <==> HasCard(s.cards, key) {
        MovingOnKeepsCards(s.cards, n.cards, key);
      }
    } else if !e.t.listed {
      UnlistedTickOpensGapExactly(run, s.executions, e.t, s.filed, s.cards);
    } else if n.cards != s.cards {
      var r := Reached(run, s.executions, e.view, e.t, s.filed);
      TickIsAtMostOneCard(run, s.executions, e.view, e.t, s.filed, s.cards);
      ListedTickKeepsPrefix(run, s.executions, e.view, e.t, r.at, r.head, s.cards, n.cards);
    }
  }

  /** Over any run the phases with cards are a prefix in every state exactly when no unlisted tick opened a gap. */
  lemma PrefixHoldsExactly(run: Run, states: seq<State>, events: seq<Event>)
    requires DistinctKeys(run.phases) && IsRun(run, states, events)
    ensures (forall n :: 0 <= n < |states| ==> CardsArePrefix(run, states[n].cards))
       <==> (forall n :: 0 <= n < |events| ==> !OpensGapAt(run, states[n], events[n]))
  {
    if forall n :: 0 <= n < |states| ==> CardsArePrefix(run, states[n].cards) {
      forall n | 0 <= n < |events| ensures !OpensGapAt(run, states[n], events[n]) {
        StepKeepsPrefixExactly(run, states[n], events[n], states[n + 1]);
      }
    }
    if forall n :: 0 <= n < |events| ==> !OpensGapAt(run, states[n], events[n]) {
      forall n | 0 <= n < |states| ensures CardsArePrefix(run, states[n].cards) {
        NoGapMeansPrefix(run, states, events, n);
      }
    }
  }

  lemma {:induction false} NoGapMeansPrefix(run: Run, states: seq<State>, events: seq<Event>, n: nat)
    requires DistinctKeys(run.phases) && IsRun(run, states, events) && n < |states|
    requires forall m :: 0 <= m < n ==> !OpensGapAt(run, states[m], events[m])
    ensures CardsArePrefix(run, states[n].cards)
  {
    if n > 0 {
      NoGapMeansPrefix(run, states, events, n - 1);
      StepKeepsPrefixExactly(run, states[n - 1], events[n - 1], states[n]);
    } else {
      assert forall key :: !HasCard([], key);
    }
  }

  // ---- every card on the board was earned -------------------------------------------------------

  predicate DoneOnBoard(cards: seq<Card>, key: string) {
    Current(cards, key).Some? && Current(cards, key).value.status == Done
  }

  /**
   * The tick in which a card came: all earlier phases were done on the board and counted, in an
   * unbroken chain; the card hangs below the one before; and it is the first of its phase, at
   * the head the worktree stood at, or the next attempt of a phase that failed cleanly.
   */
  ghost predicate Earned(run: Run, s: State, e: Event, c: Card) {
    && e.Ticked?
    && var workers := Workers(run.phases);
       var r := Reached(run, s.executions, e.view, e.t, s.filed);
       && r.at < |workers| && c.key == workers[r.at].key
       && (forall j :: 0 <= j < r.at ==> DoneOnBoard(s.cards, workers[j].key))
       && Unbroken(run, e.t.history, s.executions, workers[..r.at])
       && HeadAfter(run, s.executions, workers[..r.at]) == Some(r.head)
       && c.parent == ParentOf(e.view, workers, r.at)
       && (|| (c.generation == 1 && e.t.head == Some(r.head))
           || (&& c.key in s.executions && MayReissue(s.executions[c.key], e.t)
               && c.generation == Last(s.executions[c.key].record).generation + 1))
  }

  lemma NewCardIsEarned(run: Run, s: State, e: Event, n: State)
    requires Follows(run, s, e, n) && |n.cards| > |s.cards|
    ensures |n.cards| == |s.cards| + 1 && Earned(run, s, e, n.cards[|s.cards|])
  {
    var workers := Workers(run.phases);
    var r := Reached(run, s.executions, e.view, e.t, s.filed);
    TickIsAtMostOneCard(run, s.executions, e.view, e.t, s.filed, s.cards);
    ChainIsUnbroken(run, e.t.history, s.executions, workers[..r.at]);
    assert e.view == map[] ==> r.at == 0;
  }

  /** What stays of a card: its phase, attempt and place. */
  predicate SameCard(a: Card, b: Card) {
    a.id == b.id && a.key == b.key && a.generation == b.generation && a.parent == b.parent
  }

  lemma CardsStay(run: Run, s: State, e: Event, n: State, i: nat)
    requires Follows(run, s, e, n) && i < |s.cards|
    ensures i < |n.cards| && SameCard(n.cards[i], s.cards[i])
  {
    if e.Ticked? {
      TickIsAtMostOneCard(run, s.executions, e.view, e.t, s.filed, s.cards);
      if n.cards != s.cards {
        assert n.cards[..|s.cards|][i] == n.cards[i];
      }
    }
  }

  /** Event `m` of the run added card `i`, the one that is `c` by now. */
  predicate CameIn(states: seq<State>, m: nat, i: nat, c: Card) {
    && m + 1 < |states| && |states[m].cards| == i && |states[m + 1].cards| == i + 1
    && SameCard(states[m + 1].cards[i], c)
  }

  /** Over any run, whatever happened to the attempts since: every card on the board was earned when it came. */
  lemma {:induction false} EveryCardWasEarned(run: Run, states: seq<State>, events: seq<Event>, n: nat, i: nat)
    requires IsRun(run, states, events) && n < |states| && i < |states[n].cards|
    ensures exists m ::
      0 <= m < n && CameIn(states, m, i, states[n].cards[i]) && Earned(run, states[m], events[m], states[n].cards[i])
  {
    var s, e := states[n - 1], events[n - 1];
    assert Follows(run, s, e, states[n]);
    if i < |s.cards| {
      EveryCardWasEarned(run, states, events, n - 1, i);
      var m :| 0 <= m < n - 1 && CameIn(states, m, i, s.cards[i]) && Earned(run, states[m], events[m], s.cards[i]);
      CardsStay(run, s, e, states[n], i);
      assert CameIn(states, m, i, states[n].cards[i]) && Earned(run, states[m], events[m], states[n].cards[i]);
    } else {
      NewCardIsEarned(run, s, e, states[n]);
      assert CameIn(states, n - 1, i, states[n].cards[i]);
    }
  }

  // ---- a run that opens a gap -------------------------------------------------------------------

  function CountedAttempt(): Attempt {
    NewAttempt(1, None).(status := Exited, cleanup := Confirmed, exitCode := Some(0))
  }

  function RetriedAttempt(): Attempt {
    NewAttempt(2, Some(0)).(status := TimedOut, cleanup := Confirmed)
  }

  /** A first phase "a" whose first attempt counts at the registered base. */
  function FirstPhase(attempts: seq<Attempt>): Execution {
    Execution(Record(0, false, attempts, None), None, "tick", "a", "plan", Contract(PhaseResult, Commit(0), "todo"),
              true,
              map[1 := Promoted(1, "tick", "todo", "a", "success", Commit(0))], None, None, true)
  }

  function AnsweringTick(create: CreateReply): Tick {
    UnlistedTick(true, Readable(0), 1).(listed := true, history := map[Commit(0) := []], head := Some(Commit(0)),
                                        create := create)
  }

  function TwoPhaseRun(): Run {
    var a := Phase("a", "a", "", false, false, 1, 0, "worker", WORKER);
    Run("tick", "todo", "plan", 0, "branch", [a, a.(key := "b")], Commit(0), false)
  }

  lemma TwoWorkers()
    ensures var r := TwoPhaseRun(); Workers(r.phases) == r.phases && DistinctKeys(r.phases)
  {
    var r := TwoPhaseRun();
    assert Workers(r.phases[1..]) == r.phases[1..];
  }

  const FIRST := Card(0, "a", 1, Open, None, None)
  const SECOND := Card(1, "b", 1, Open, Some(0), None)

  lemma FirstTick() returns (states: seq<State>, events: seq<Event>)
    ensures IsRun(TwoPhaseRun(), states, events) && |events| == 1
    ensures states[1].cards == [FIRST] && states[1].filed.None?
  {
    TwoWorkers();
    var t := AnsweringTick(Landed(0));
    var s, n := State(map[], [], None), State(map[], [FIRST], None);
    assert TickCards(TwoPhaseRun(), map[], map[], t, None, []) == [FIRST];
    RunStarts(TwoPhaseRun(), s);
    RunGoesOn(TwoPhaseRun(), [s], [], Ticked(t, map[]), n);
    states, events := [s] + [n], [] + [Ticked(t, map[])];
  }

  lemma SecondTickFollows(done: Card, counted: Executions, t: Tick)
    requires done == FIRST.(status := Done) && counted == map["a" := FirstPhase([CountedAttempt()])]
    requires t == AnsweringTick(Landed(1))
    ensures var view := map["a" := done];
      Follows(TwoPhaseRun(), State(counted, [done], None), Ticked(t, view), State(counted, [done, SECOND], None))
  {
    TwoWorkers();
    var run, view: View := TwoPhaseRun(), map["a" := done];
    assert Last(counted["a"].record) == CountedAttempt();
    assert IsAuthorized(run, t.history, counted, "a");
    forall key ensures key in view <==> HasCard([done], key)
      ensures key in view ==> Current([done], key) == Some(view[key])
    {
      assert done in [done];
      assert [done][..0] == [];
    }
    assert Passes(run, counted, run.phases[0], done, t, run.base, None);
    assert ReachFrom(run, counted, view, t, Reach(1, Commit(0), None)) == Reach(1, Commit(0), None);
    assert Reached(run, counted, view, t, None) == Reach(1, Commit(0), None);
    assert !Published([done], "b", 1);
    assert TickCards(run, counted, view, t, None, [done]) == [done, SECOND];
  }

  lemma SecondTick(past: seq<State>, before: seq<Event>) returns (states: seq<State>, events: seq<Event>)
    requires IsRun(TwoPhaseRun(), past, before)
    requires past[|before|].cards == [FIRST] && past[|before|].filed.None?
    ensures IsRun(TwoPhaseRun(), states, events) && |events| == |before| + 2
    ensures var s := states[|events|];
      && s.cards == [FIRST.(status := Done), SECOND] && s.filed.None?
      && s.executions == map["a" := FirstPhase([CountedAttempt()])]
  {
    var done, t := FIRST.(status := Done), AnsweringTick(Landed(1));
    var counted := map["a" := FirstPhase([CountedAttempt()])];
    SecondTickFollows(done, counted, t);
    var s, e := State(counted, [done], None), Ticked(t, map["a" := done]);
    var n := State(counted, [done, SECOND], None);
    states, events := RunGoesOnTwice(TwoPhaseRun(), past, before, s, e, n);
  }

  lemma LastTickFollows(done: Card, again: Executions, t: Tick)
    requires done == FIRST.(status := Done)
    requires again == map["a" := FirstPhase([CountedAttempt(), RetriedAttempt()])]
    requires t == UnlistedTick(true, Readable(0), 1)
    ensures Follows(TwoPhaseRun(), State(again, [done, SECOND], None), Ticked(t, map[]),
                    State(again, [done.(status := Archived), SECOND], None))
  {
    TwoWorkers();
    var cards, a := [done, SECOND], again["a"];
    assert Last(a.record) == RetriedAttempt();
    assert VerdictOf(a, t).Approves();
    assert done in cards && Live(done, "a");
    assert RetirementDone(cards, "a", t.retire);
    var gone := [done.(status := Archived), SECOND];
    assert Retired(cards, "a", t.retire) == gone;
    assert TickCards(TwoPhaseRun(), again, map[], t, None, cards) == gone;
  }

  lemma LastTick(past: seq<State>, before: seq<Event>) returns (states: seq<State>, events: seq<Event>)
    requires IsRun(TwoPhaseRun(), past, before)
    requires past[|before|].cards == [FIRST.(status := Done), SECOND] && past[|before|].filed.None?
    ensures IsRun(TwoPhaseRun(), states, events) && |events| == |before| + 2 && states[..|past|] == past
    ensures states[|before| + 1].cards == [FIRST.(status := Done), SECOND]
    ensures states[|before| + 1].executions == map["a" := FirstPhase([CountedAttempt(), RetriedAttempt()])]
    ensures states[|events|].cards == [FIRST.(status := Archived), SECOND]
  {
    var done, t := FIRST.(status := Done), UnlistedTick(true, Readable(0), 1);
    var again := map["a" := FirstPhase([CountedAttempt(), RetriedAttempt()])];
    LastTickFollows(done, again, t);
    var s, e := State(again, [done, SECOND], None), Ticked(t, map[]);
    var n := State(again, [done.(status := Archived), SECOND], None);
    states, events := RunGoesOnTwice(TwoPhaseRun(), past, before, s, e, n);
  }

  lemma GapSeen()
    ensures CardsArePrefix(TwoPhaseRun(), [FIRST.(status := Done), SECOND])
    ensures !CardsArePrefix(TwoPhaseRun(), [FIRST.(status := Archived), SECOND])
  {
    TwoWorkers();
    var done := FIRST.(status := Done);
    assert done in [done, SECOND] && Live(done, "a");
    assert SECOND in [done.(status := Archived), SECOND] && Live(SECOND, "b");
  }

  /**
   * Two phases have their cards, the first having counted. An operator then has the first one
   * run again, that attempt times out, and the next tick cannot list the board.
   */
  lemma OperatorRetryOpensGap() returns (run: Run, states: seq<State>, events: seq<Event>)
    ensures DistinctKeys(run.phases) && IsRun(run, states, events) && |events| == 5
    ensures states[3].executions == map["a" := FirstPhase([CountedAttempt()])]
    ensures states[4].executions == map["a" := FirstPhase([CountedAttempt(), RetriedAttempt()])]
    ensures CardsArePrefix(run, states[4].cards) && !CardsArePrefix(run, states[5].cards)
  {
    run := TwoPhaseRun();
    TwoWorkers();
    GapSeen();
    var first, e := FirstTick();
    var second, f := SecondTick(first, e);
    states, events := LastTick(second, f);
    assert states[3] == states[..4][3] == second[3];
  }
}
