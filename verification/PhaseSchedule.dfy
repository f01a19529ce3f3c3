/**
 * One scheduling tick of a registered run: at most one worker card is created, and only for
 * the first phase that is not done, behind phases that all count (phase_schedule.py), or as
 * the next attempt of a phase whose last attempt failed cleanly (phase_recovery.py).
 */
module PhaseSchedule {
  import opened Common
  import opened CommitGraph
  import opened ExecutionRecords
  import opened Recovery
  import opened PhaseDefinitions
  import opened PhaseAuthority

  // ---- the board ---------------------------------------------------------------------------

  datatype CardStatus = Open | Working | Stopped | Triage | Done | Archived

  datatype Card = Card(id: nat, key: string, generation: nat, status: CardStatus, parent: Option<nat>,
                       reported: Option<Promoted>)

  predicate Live(c: Card, key: string) {
    c.key == key && c.status != Archived
  }

  predicate HasCard(cards: seq<Card>, key: string) {
    exists c :: c in cards && Live(c, key)
  }

  /** The card that speaks for a phase: the highest generation, and on a tie the last listed. */
  function Current(cards: seq<Card>, key: string): (r: Option<Card>)
    ensures r.Some? <==> HasCard(cards, key)
    ensures r.Some? ==> r.value in cards && Live(r.value, key)
    ensures r.Some? ==> forall c :: c in cards && Live(c, key) ==> c.generation <= r.value.generation
  {
    if cards == [] then None
    else
      var n := |cards| - 1;
      var before := Current(cards[..n], key);
      assert cards == cards[..n] + [cards[n]];
      if Live(cards[n], key) && (before.None? || before.value.generation <= cards[n].generation)
      then Some(cards[n]) else before
  }

  type View = map<string, Card>

  /** What a tick believes is on the board: everything, or nothing where the listing failed. */
  ghost predicate Sees(view: View, cards: seq<Card>, listed: bool) {
    && (listed ==> forall key :: key in view <==> HasCard(cards, key))
    && (listed ==> forall key :: key in view ==> Current(cards, key) == Some(view[key]))
    && (!listed ==> view == map[])
  }

  method ListCards(cards: seq<Card>, listed: bool) returns (view: View)
    ensures Sees(view, cards, listed)
  {
    view := map[];
    if !listed {
      return;
    }
    for i := 0 to |cards|
      invariant Sees(view, cards[..i], true)
    {
      var c := cards[i];
      assert cards[..i + 1][..i] == cards[..i] && cards[..i + 1] == cards[..i] + [c];
      if c.status != Archived && !(c.key in view && view[c.key].generation > c.generation) {
        view := view[c.key := c];
      }
      forall key
        ensures key in view <==> Current(cards[..i + 1], key).Some?
        ensures key in view ==> Current(cards[..i + 1], key) == Some(view[key])
      {
        assert Current(cards[..i], key).Some? <==> HasCard(cards[..i], key);
      }
    }
    assert cards[..|cards|] == cards;
  }

  // ---- outcomes ---------------------------------------------------------------------------

  datatype Code =
    | PolicyRefused(reason: VerdictReason) | AdmissionStalled | ArchiveUnconfirmed | OrderMismatch
    | HeadMismatch | ParentMismatch | ResultUnconfirmed | AcceptedHeadConflict | DeliveryRefused | TaskRefused

  datatype Marker = Marker(key: string, code: Code)

  datatype Outcome = Proceed | Wait | Reissued | Refused | Deferred | Raised(code: Code)

  datatype CreateReply = Landed(id: nat) | NoReply(landed: bool, id: nat) | Unavailable | Rejected

  datatype RetireReply = Unreadable | Archives(all: bool, ids: set<nat>)

  /** How taking the run authority went: held, held by a live owner, or not takeable. */
  datatype Authority = Held | Busy | Broken

  /** What the outside answers during one tick. */
  datatype Tick = Tick(
    authority: Authority, listed: bool, history: History, head: Option<Commit>,
    approvalRan: bool, peers: bool, evidence: Evidence, event: EventId,
    daemonAlive: bool, unblocks: bool, registered: bool,
    create: CreateReply, retire: RetireReply,
    filedReadable: bool, filingWorks: bool,
    mayDeliver: bool, delivered: bool, finishVerified: bool, closed: bool)

  // ---- what one tick may do to the cards ------------------------------------------------------

  /** Cards of `key` may have been archived; nothing else about existing cards changed. */
  predicate OnlyArchived(before: seq<Card>, after: seq<Card>, key: string) {
    && |after| == |before|
    && forall i :: 0 <= i < |before| ==>
         after[i] == before[i] || (before[i].key == key && after[i] == before[i].(status := Archived))
  }

  /** The last attempt failed with its cleanup confirmed; cards are only ever retired then. */
  predicate FailedCleanly(e: Execution) {
    e.record.attempts != [] && Resumable(Last(e.record))
  }

  /** What the closed policy answers to the tick. */
  function VerdictOf(e: Execution, t: Tick): Verdict {
    AutoApprove(e.record, e.intent, t.peers, t.evidence, t.event, MAX_GENERATIONS).0
  }

  /** The last attempt failed cleanly and the closed policy approved another one. */
  ghost predicate MayReissue(e: Execution, t: Tick) {
    FailedCleanly(e) && t.approvalRan && VerdictOf(e, t).Approves()
  }

  /** The card of the next attempt, after the phase's other cards were retired. */
  ghost predicate IsReissue(executions: map<string, Execution>, t: Tick, rest: seq<Card>, key: string, c: Card) {
    && key in executions
    && MayReissue(executions[key], t)
    && c.generation == Last(executions[key].record).generation + 1
    && !HasCard(rest, key)
  }

  /** The first card of a phase, at the head the phases before it prove. */
  ghost predicate IsFirst(view: View, t: Tick, before: seq<Card>, rest: seq<Card>, key: string, head: Commit, c: Card) {
    c.generation == 1 && key !in view && t.head == Some(head) && rest == before
  }

  /** One phase's cards may have been retired, and at most one card for it was added. */
  ghost predicate CardChange(executions: map<string, Execution>, view: View, t: Tick, key: string, parent: Option<nat>,
                             head: Commit, before: seq<Card>, after: seq<Card>)
  {
    && |before| <= |after| <= |before| + 1
    && OnlyArchived(before, after[..|before|], key)
    && (after[..|before|] != before ==> key in executions && FailedCleanly(executions[key]))
    && (|after| == |before| + 1 ==>
          var c := after[|before|];
          && c.key == key && c.status == Open && c.parent == parent
          && (|| IsFirst(view, t, before, after[..|before|], key, head, c)
              || IsReissue(executions, t, after[..|before|], key, c)))
  }

  /** The card of the phase before, where there is one. */
  function ParentOf(view: View, workers: seq<Phase>, at: nat): Option<nat>
    requires at <= |workers|
  {
    if at == 0 || workers[at - 1].key !in view then None else Some(view[workers[at - 1].key].id)
  }

  /** The first `at` phases are done on the board and count; the proven head is `head`. */
  ghost predicate Passed(run: Run, h: History, executions: map<string, Execution>, view: View, at: nat, head: Commit) {
    var workers := Workers(run.phases);
    && at <= |workers|
    && (forall j :: 0 <= j < at ==> workers[j].key in view && view[workers[j].key].status == Done)
    && ChainHead(run, h, executions, workers[..at]) == Some(head)
  }

  /** A phase after this one already has a card. */
  predicate LaterCard(workers: seq<Phase>, at: nat, view: View) {
    exists j :: at < j < |workers| && workers[j].key in view
  }

  /** The accepted head on file is one this tick proved at a review, or was there before. */
  ghost predicate AcceptedHeadProven(run: Run, h: History, executions: map<string, Execution>, before: Option<Commit>,
                                     after: Option<Commit>) {
    var workers := Workers(run.phases);
    || after == before
    || exists i :: 0 <= i < |workers| && workers[i].role == REVIEW
                   && after == ChainHead(run, h, executions, workers[..i + 1])
  }

  /** The phases before `at` are passed, and if anything changed it was the cards of phase `at`. */
  ghost predicate AtMostOneCard(run: Run, executions: map<string, Execution>, view: View, t: Tick, at: nat,
                                head: Commit, before: seq<Card>, after: seq<Card>)
  {
    && Passed(run, t.history, executions, view, at, head)
    && (after != before ==>
          var workers := Workers(run.phases);
          && at < |workers|
          && !LaterCard(workers, at, view)
          && CardChange(executions, view, t, workers[at].key, ParentOf(view, workers, at), head, before, after))
  }

  lemma PassedOneMore(run: Run, h: History, executions: map<string, Execution>, view: View, at: nat, head: Commit,
                      key: string)
    requires Passed(run, h, executions, view, at, head) && at < |Workers(run.phases)|
    requires key == Workers(run.phases)[at].key
    requires key in view && view[key].status == Done && Counts(run, h, executions, key, head)
    ensures Passed(run, h, executions, view, at + 1, ResultOf(executions[key]).value.head)
  {
    ChainStep(run, h, executions, Workers(run.phases), at, head);
  }

  /** Of the executions, only recovery intents changed. */
  predicate OnlyIntents(before: map<string, Execution>, after: map<string, Execution>) {
    && after.Keys == before.Keys
    && forall k :: k in after ==> after[k] == before[k].(intent := after[k].intent)
  }

  function WithArchived(cards: seq<Card>, key: string, reply: RetireReply): (r: seq<Card>)
    requires reply.Archives?
    ensures OnlyArchived(cards, r, key)
    ensures reply.all || !HasCard(cards, key) ==> !HasCard(r, key)
  {
    seq(|cards|, i requires 0 <= i < |cards| =>
      if Live(cards[i], key) && (reply.all || cards[i].id in reply.ids) then cards[i].(status := Archived)
      else cards[i])
  }

  // ---- exactly what one tick does to the cards -------------------------------------------------

  predicate SomeoneWorking(cards: seq<Card>, key: string) {
    exists c :: c in cards && Live(c, key) && c.status == Working
  }

  predicate Published(cards: seq<Card>, key: string, generation: nat) {
    exists c :: c in cards && Live(c, key) && c.generation == generation
  }

  function Retired(cards: seq<Card>, key: string, reply: RetireReply): seq<Card> {
    if reply.Unreadable? || SomeoneWorking(cards, key) then cards else WithArchived(cards, key, reply)
  }

  /** The retirement was confirmed, or there was nothing to retire. */
  predicate RetirementDone(cards: seq<Card>, key: string, reply: RetireReply) {
    reply.Archives? && !SomeoneWorking(cards, key) && (reply.all || !HasCard(cards, key))
  }

  predicate Lands(reply: CreateReply) {
    reply.Landed? || (reply.NoReply? && reply.landed)
  }

  function Created(cards: seq<Card>, key: string, generation: nat, parent: Option<nat>, reply: CreateReply): seq<Card> {
    if !Lands(reply) || Published(cards, key, generation) then cards
    else cards + [Card(reply.id, key, generation, Open, parent, None)]
  }

  /** The cards after the tick asked the policy for another attempt. */
  function Resumed(e: Execution, key: string, parent: Option<nat>, t: Tick, cards: seq<Card>): seq<Card>
    requires FailedCleanly(e)
  {
    if !t.approvalRan then cards
    else if VerdictOf(e, t).Approves() && RetirementDone(cards, key, t.retire)
    then Created(Retired(cards, key, t.retire), key, Last(e.record).generation + 1, parent, t.create)
    else if VerdictOf(e, t).Approves() || VerdictOf(e, t).reason == GenerationExhausted
    then Retired(cards, key, t.retire)
    else cards
  }

  predicate GaveUp(worker: Option<Card>) {
    worker.Some? && worker.value.status in {Stopped, Triage}
  }

  /** The card already is the one of the next attempt, whose approval nobody consumed yet. */
  predicate AwaitsAdmission(e: Execution, worker: Card)
    requires e.record.attempts != []
  {
    && worker.generation > Last(e.record).generation
    && e.intent.Some? && e.intent.value.status == Approved
    && e.intent.value.preview.generation == Last(e.record).generation
  }

  /** The tick asks for another attempt: no card, or one its worker gave up on that no approval still waits for. */
  predicate Asks(e: Execution, worker: Option<Card>) {
    FailedCleanly(e) && (worker.None? || (GaveUp(worker) && !AwaitsAdmission(e, worker.value)))
  }

  /** No attempt is running and none failed cleanly. */
  predicate OrdinaryFlow(executions: map<string, Execution>, key: string) {
    || key !in executions || executions[key].record.attempts == []
    || (Terminal(Last(executions[key].record).status) && !FailedCleanly(executions[key]))
  }

  /** The cards after the tick attended to a phase that is not done. */
  function Advanced(run: Run, executions: map<string, Execution>, phase: Phase, worker: Option<Card>,
                    parent: Option<nat>, t: Tick, head: Commit, cards: seq<Card>): seq<Card>
  {
    if OrdinaryFlow(executions, phase.key) then
      if worker.None? && t.head == Some(head) && (phase.role == DELIVERY && run.manifest ==> t.mayDeliver)
      then Created(cards, phase.key, 1, parent, t.create) else cards
    else if Asks(executions[phase.key], worker) then Resumed(executions[phase.key], phase.key, parent, t, cards)
    else cards
  }

  /** A done phase counts, and matches what its card reports where the contract asks. */
  predicate Accepted(run: Run, executions: map<string, Execution>, phase: Phase, card: Card, t: Tick, head: Commit) {
    && Counts(run, t.history, executions, phase.key, head)
    && (executions[phase.key].contract.kind == WorkerResult ==> card.reported == ResultOf(executions[phase.key]))
  }

  /** Whether accepting the phase files its head. */
  predicate FilesHead(run: Run, phase: Phase) {
    phase.role == REVIEW && run.manifest
  }

  /** A filed head that can be read is only confirmed; where none can be read, this one is written. */
  predicate Confirms(t: Tick, filed: Option<Commit>, accepted: Commit) {
    if t.filedReadable && filed.Some? then filed == Some(accepted) else t.filingWorks
  }

  /** The filed head that can be read is another one. */
  predicate Contradicts(t: Tick, filed: Option<Commit>, accepted: Commit) {
    t.filedReadable && filed.Some? && filed != Some(accepted)
  }

  /** An accepted phase is passed when its head is the filed one or becomes it, and its delivery is complete. */
  predicate Passes(run: Run, executions: map<string, Execution>, phase: Phase, card: Card, t: Tick, head: Commit,
                   filed: Option<Commit>)
  {
    && Accepted(run, executions, phase, card, t, head)
    && (FilesHead(run, phase) ==> Confirms(t, filed, ResultOf(executions[phase.key]).value.head))
    && (phase.role == DELIVERY && run.manifest ==> t.delivered && t.finishVerified)
  }

  function FiledAfter(run: Run, phase: Phase, filed: Option<Commit>, accepted: Commit): Option<Commit> {
    if FilesHead(run, phase) then Some(accepted) else filed
  }

  predicate DoneInView(view: View, key: string) {
    key in view && view[key].status == Done
  }

  /** How far a tick gets, the head proven there, and the accepted head then on file. */
  datatype Reach = Reach(at: nat, head: Commit, filed: Option<Commit>)

  function ReachFrom(run: Run, executions: map<string, Execution>, view: View, t: Tick, r: Reach): (far: Reach)
    requires r.at <= |Workers(run.phases)|
    ensures r.at <= far.at <= |Workers(run.phases)|
    decreases |Workers(run.phases)| - r.at
  {
    var workers := Workers(run.phases);
    if r.at < |workers| && DoneInView(view, workers[r.at].key)
       && Passes(run, executions, workers[r.at], view[workers[r.at].key], t, r.head, r.filed)
    then ReachFrom(run, executions, view, t, Onward(run, executions, workers[r.at], r))
    else r
  }

  /** One phase further. */
  function Onward(run: Run, executions: map<string, Execution>, phase: Phase, r: Reach): Reach
    requires phase.key in executions && ResultOf(executions[phase.key]).Some?
  {
    var accepted := ResultOf(executions[phase.key]).value.head;
    Reach(r.at + 1, accepted, FiledAfter(run, phase, r.filed, accepted))
  }

  function Reached(run: Run, executions: map<string, Execution>, view: View, t: Tick,
                   filed: Option<Commit>): (far: Reach)
    ensures far.at <= |Workers(run.phases)|
  {
    ReachFrom(run, executions, view, t, Reach(0, run.base, filed))
  }

  /** The cards after a whole tick that saw `view`. */
  function TickCards(run: Run, executions: map<string, Execution>, view: View, t: Tick, filed: Option<Commit>,
                     cards: seq<Card>): seq<Card>
  {
    var r := Reached(run, executions, view, t, filed);
    var workers := Workers(run.phases);
    if t.authority != Held || r.at == |workers| || DoneInView(view, workers[r.at].key) || LaterCard(workers, r.at, view)
    then cards
    else Advanced(run, executions, workers[r.at], WorkerOf(view, workers[r.at].key), ParentOf(view, workers, r.at),
                  t, r.head, cards)
  }

  /** The accepted head on file after a whole tick. */
  function TickFiled(run: Run, executions: map<string, Execution>, view: View, t: Tick,
                     filed: Option<Commit>): Option<Commit> {
    if t.authority == Held then Reached(run, executions, view, t, filed).filed else filed
  }

  /** The tick stops at a review that is done and accepted, because another head is on file. */
  predicate StopsInConflict(run: Run, executions: map<string, Execution>, view: View, t: Tick, r: Reach) {
    var workers := Workers(run.phases);
    && r.at < |workers| && FilesHead(run, workers[r.at]) && DoneInView(view, workers[r.at].key)
    && Accepted(run, executions, workers[r.at], view[workers[r.at].key], t, r.head)
    && Contradicts(t, r.filed, ResultOf(executions[workers[r.at].key]).value.head)
  }

  /** What the phase's own cards may have become, read off the exact effect. */
  lemma ResumedIsReissue(executions: map<string, Execution>, view: View, key: string, parent: Option<nat>, t: Tick,
                         head: Commit, cards: seq<Card>)
    requires key in executions && FailedCleanly(executions[key])
    ensures CardChange(executions, view, t, key, parent, head, cards, Resumed(executions[key], key, parent, t, cards))
  {
    var after := Resumed(executions[key], key, parent, t, cards);
    assert cards[..|cards|] == cards && after[..|after|] == after;
    if after != cards {
      assert after[..|cards|] == Retired(cards, key, t.retire);
    }
  }

  lemma AdvancedIsCardChange(run: Run, executions: map<string, Execution>, view: View, phase: Phase,
                             parent: Option<nat>,
                             t: Tick, head: Commit, cards: seq<Card>)
    ensures CardChange(executions, view, t, phase.key, parent, head, cards,
                       Advanced(run, executions, phase, WorkerOf(view, phase.key), parent, t, head, cards))
  {
    assert cards[..|cards|] == cards;
    if phase.key in executions && FailedCleanly(executions[phase.key]) {
      ResumedIsReissue(executions, view, phase.key, parent, t, head, cards);
    }
    var added := Created(cards, phase.key, 1, parent, t.create);
    assert added != cards ==> added[..|cards|] == cards;
  }

  lemma ReachIsPassed(run: Run, executions: map<string, Execution>, view: View, t: Tick, r: Reach)
    requires Passed(run, t.history, executions, view, r.at, r.head)
    ensures var far := ReachFrom(run, executions, view, t, r);
      Passed(run, t.history, executions, view, far.at, far.head)
    decreases |Workers(run.phases)| - r.at
  {
    var workers := Workers(run.phases);
    if r.at < |workers| && DoneInView(view, workers[r.at].key)
       && Passes(run, executions, workers[r.at], view[workers[r.at].key], t, r.head, r.filed)
    {
      PassedOneMore(run, t.history, executions, view, r.at, r.head, workers[r.at].key);
      ReachIsPassed(run, executions, view, t, Onward(run, executions, workers[r.at], r));
    }
  }

  lemma ReachedIsPassed(run: Run, executions: map<string, Execution>, view: View, t: Tick, filed: Option<Commit>)
    ensures var r := Reached(run, executions, view, t, filed); Passed(run, t.history, executions, view, r.at, r.head)
  {
    assert Workers(run.phases)[..0] == [];
    ReachIsPassed(run, executions, view, t, Reach(0, run.base, filed));
  }

  /** What is on file was there before, or is the head proven at a review. */
  lemma FiledIsProven(run: Run, executions: map<string, Execution>, view: View, t: Tick, r: Reach,
                      first: Option<Commit>)
    requires Passed(run, t.history, executions, view, r.at, r.head)
    requires AcceptedHeadProven(run, t.history, executions, first, r.filed)
    ensures AcceptedHeadProven(run, t.history, executions, first, ReachFrom(run, executions, view, t, r).filed)
    decreases |Workers(run.phases)| - r.at
  {
    var workers := Workers(run.phases);
    if r.at < |workers| && DoneInView(view, workers[r.at].key)
       && Passes(run, executions, workers[r.at], view[workers[r.at].key], t, r.head, r.filed)
    {
      ChainStep(run, t.history, executions, workers, r.at, r.head);
      PassedOneMore(run, t.history, executions, view, r.at, r.head, workers[r.at].key);
      FiledIsProven(run, executions, view, t, Onward(run, executions, workers[r.at], r), first);
    }
  }

  lemma TickFilesProven(run: Run, executions: map<string, Execution>, view: View, t: Tick, filed: Option<Commit>)
    ensures AcceptedHeadProven(run, t.history, executions, filed, Reached(run, executions, view, t, filed).filed)
  {
    assert Workers(run.phases)[..0] == [];
    FiledIsProven(run, executions, view, t, Reach(0, run.base, filed), filed);
  }

  /** One tick changes the cards of one phase at most and adds one at most, behind done and counted phases. */
  lemma TickIsAtMostOneCard(run: Run, executions: map<string, Execution>, view: View, t: Tick, filed: Option<Commit>,
                            cards: seq<Card>)
    ensures var r := Reached(run, executions, view, t, filed);
      AtMostOneCard(run, executions, view, t, r.at, r.head, cards, TickCards(run, executions, view, t, filed, cards))
  {
    var workers := Workers(run.phases);
    ReachedIsPassed(run, executions, view, t, filed);
    var r := Reached(run, executions, view, t, filed);
    if TickCards(run, executions, view, t, filed, cards) != cards {
      AdvancedIsCardChange(run, executions, view, workers[r.at], ParentOf(view, workers, r.at), t, r.head, cards);
    }
  }

  function WorkerOf(view: View, key: string): Option<Card> {
    if key in view then Some(view[key]) else None
  }

  // ---- the scheduler ---------------------------------------------------------------------------

  class Scheduler {
    const run: Run
    var cards: seq<Card>
    var executions: map<string, Execution>
    var unblocked: set<(string, nat)>
    var blocked: Option<Marker>
    var acceptedHead: Option<Commit>
    var abandoned: bool

    constructor (run: Run, executions: map<string, Execution>)
      ensures this.run == run && this.executions == executions
      ensures cards == [] && unblocked == {} && blocked.None? && !abandoned
    {
      this.run, this.executions := run, executions;
      cards, unblocked, blocked, acceptedHead, abandoned := [], {}, None, None, false;
    }

    /** Publishes a card unless a live one of this phase and generation is already there. */
    method CreateCard(key: string, generation: nat, parent: Option<nat>, reply: CreateReply) returns (o: Outcome)
      modifies this`cards
      ensures o in {Proceed, Deferred, Raised(TaskRefused)}
      ensures cards == Created(old(cards), key, generation, parent, reply)
      ensures o == Proceed ==> Published(cards, key, generation)
      ensures o.Raised? ==> cards == old(cards)
    {
      if reply.Unavailable? {
        return Deferred;
      }
      if reply.Rejected? {
        return Raised(TaskRefused);
      }
      if Published(cards, key, generation) {
        return Proceed;
      }
      var card := Card(reply.id, key, generation, Open, parent, None);
      if reply.Landed? {
        cards := cards + [card];
        assert card in cards;
        return Proceed;
      }
      if reply.landed {
        cards := cards + [card];
      }
      o := Deferred;
    }

    /** Archives every live card of the phase, unless one of them is still being worked on. */
    method RetireCards(key: string, reply: RetireReply) returns (o: Outcome)
      modifies this`cards
      ensures o in {Proceed, Wait, Raised(ArchiveUnconfirmed)}
      ensures cards == Retired(old(cards), key, reply)
      ensures o == Proceed <==> RetirementDone(old(cards), key, reply)
      ensures o == Wait <==> !reply.Unreadable? && SomeoneWorking(old(cards), key)
      ensures OnlyArchived(old(cards), cards, key)
      ensures o == Proceed ==> !HasCard(cards, key)
    {
      if reply.Unreadable? {
        return Raised(ArchiveUnconfirmed);
      }
      if SomeoneWorking(cards, key) {
        return Wait;
      }
      var stale := HasCard(cards, key);
      cards := WithArchived(cards, key, reply);
      o := if stale && !reply.all then Raised(ArchiveUnconfirmed) else Proceed;
    }

    /** Asks the board to unblock a card, at most once per phase and card generation. */
    method UnblockOnce(key: string, generation: nat, confirmed: bool) returns (done: bool)
      modifies this`unblocked
      ensures done <==> confirmed && (key, generation) !in old(unblocked)
      ensures unblocked == if done then old(unblocked) + {(key, generation)} else old(unblocked)
    {
      if (key, generation) in unblocked || !confirmed {
        return false;
      }
      unblocked := unblocked + {(key, generation)};
      done := true;
    }

    method Refuse(key: string, code: Code) returns (o: Outcome)
      modifies this`blocked
      ensures o == Refused && blocked == Some(Marker(key, code))
    {
      blocked := Some(Marker(key, code));
      o := Refused;
    }

    /** Asks the policy for another attempt and, when approved, replaces the phase's cards by one new card. */
    method ResumeAttempt(key: string, parent: Option<nat>, t: Tick) returns (o: Outcome)
      requires key in executions && FailedCleanly(executions[key])
      modifies this`cards, this`executions, this`blocked, this`abandoned
      ensures o in {Wait, Reissued, Refused, Deferred, Raised(TaskRefused), Raised(ArchiveUnconfirmed)}
      ensures o == Refused ==> blocked.Some? && blocked.value.key == key
      ensures o != Refused ==> blocked == old(blocked)
      ensures exists intent :: executions == old(executions)[key := old(executions)[key].(intent := intent)]
      ensures cards == Resumed(old(executions)[key], key, parent, t, old(cards))
      ensures |old(cards)| <= |cards| <= |old(cards)| + 1
      ensures OnlyArchived(old(cards), cards[..|old(cards)|], key)
      ensures o == Reissued ==> |cards| == |old(cards)| + 1
      ensures |cards| == |old(cards)| + 1 ==>
        (&& cards[|old(cards)|].key == key && cards[|old(cards)|].status == Open && cards[|old(cards)|].parent == parent
         && o in {Reissued, Deferred}
         && IsReissue(old(executions), t, cards[..|old(cards)|], key, cards[|old(cards)|]))
      ensures SomeoneWorking(old(cards), key) ==>
        cards[..|old(cards)|] == old(cards) && |cards| == |old(cards)|
    {
      ghost var start := cards;
      assert start[..|start|] == start;
      var e := executions[key];
      var attempt := Last(e.record);
      if !t.approvalRan {
        assert executions == executions[key := e.(intent := e.intent)];
        return Wait;
      }
      var (verdict, intent) := AutoApprove(e.record, e.intent, t.peers, t.evidence, t.event, MAX_GENERATIONS);
      executions := executions[key := e.(intent := intent)];
      if !verdict.Approves() {
        if verdict.reason == WorktreeBusy {
          return Wait;
        }
        if verdict.reason == GenerationExhausted {
          o := RetireCards(key, t.retire);
          if o != Proceed {
            return;
          }
          assert cards[..|start|] == cards;
          abandoned := abandoned || t.registered;
        }
        o := Refuse(key, PolicyRefused(verdict.reason));
        return;
      }
      o := RetireCards(key, t.retire);
      assert cards[..|start|] == cards;
      if o != Proceed {
        return;
      }
      ghost var rest := cards;
      o := CreateCard(key, attempt.generation + 1, parent, t.create);
      assert cards[..|start|] == rest;
      assert !HasCard(rest, key) && (o == Proceed ==> HasCard(cards, key));
      assert o == Proceed ==> cards != rest;
      if o == Proceed {
        o := Reissued;
      }
    }

    /** Decides what the tick does for a phase whose card is missing or not done. */
    method RouteRecovery(key: string, worker: Option<Card>, parent: Option<nat>, t: Tick) returns (o: Outcome)
      modifies this`cards, this`executions, this`unblocked, this`blocked, this`abandoned
      ensures o in {Proceed, Wait, Reissued, Refused, Deferred, Raised(TaskRefused), Raised(ArchiveUnconfirmed)}
      // The ordinary flow applies exactly when no attempt is running and none failed cleanly.
      ensures o == Proceed <==> OrdinaryFlow(old(executions), key)
      ensures o == Proceed ==> cards == old(cards) && executions == old(executions) && blocked == old(blocked)
      ensures o == Refused ==> blocked.Some? && blocked.value.key == key
      ensures o != Refused ==> blocked == old(blocked)
      // Only the recovery intent of this phase changes.
      ensures executions.Keys == old(executions).Keys
      ensures forall k :: k in executions ==> executions[k] == old(executions)[k].(intent := executions[k].intent)
      ensures forall k :: k in executions && k != key ==> executions[k] == old(executions)[k]
      // What happens to the cards.
      ensures o != Proceed ==>
        cards == if Asks(old(executions)[key], worker) then Resumed(old(executions)[key], key, parent, t, old(cards))
          else old(cards)
      ensures |old(cards)| <= |cards| <= |old(cards)| + 1
      ensures OnlyArchived(old(cards), cards[..|old(cards)|], key)
      ensures cards[..|old(cards)|] != old(cards) ==> key in old(executions) && FailedCleanly(old(executions)[key])
      ensures |cards| == |old(cards)| + 1 ==>
        (&& cards[|old(cards)|].key == key && cards[|old(cards)|].status == Open && cards[|old(cards)|].parent == parent
         && o in {Reissued, Deferred}
         && IsReissue(old(executions), t, cards[..|old(cards)|], key, cards[|old(cards)|]))
      ensures unblocked == old(unblocked)
        || (exists g: nat :: unblocked == old(unblocked) + {(key, g)} && (key, g) !in old(unblocked))
      // A live worker is never taken from its card.
      ensures SomeoneWorking(old(cards), key) ==>
        cards[..|old(cards)|] == old(cards) && |cards| == |old(cards)|
    {
      assert cards[..|cards|] == cards;
      if key !in executions || executions[key].record.attempts == [] {
        return Proceed;
      }
      var e := executions[key];
      var attempt := Last(e.record);
      var gaveUp := GaveUp(worker);
      if !Terminal(attempt.status) {
        if worker.Some? && worker.value.status == Stopped && t.daemonAlive {
          var _ := UnblockOnce(key, worker.value.generation, t.unblocks);
        }
        return Wait;
      }
      if !Resumable(attempt) {
        return Proceed;
      }
      if worker.Some? && worker.value.generation > attempt.generation {
        if !gaveUp {
          return Wait;
        }
        if AwaitsAdmission(e, worker.value) {
          if worker.value.status == Stopped {
            var again := UnblockOnce(key, worker.value.generation, t.unblocks);
            if again {
              return Wait;
            }
          }
          o := Refuse(key, AdmissionStalled);
          return;
        }
      } else if worker.Some? && !gaveUp {
        return Wait;
      }
      o := ResumeAttempt(key, parent, t);
    }

    /** The result file of a finished phase, checked against what its card reports where the contract asks for it. */
    method CountedResult(key: string, card: Card, head: Commit, h: History) returns (r: Result<Commit, Code>)
      ensures r.Success? <==> (&& Counts(run, h, executions, key, head)
                               && (executions[key].contract.kind == WorkerResult ==>
                                     card.reported == ResultOf(executions[key])))
      ensures r.Success? ==>
        Some(r.value) == (if ResultOf(executions[key]).Some? then Some(ResultOf(executions[key]).value.head) else None)
    {
      if key !in executions || ResultOf(executions[key]).None? {
        return Failure(ResultUnconfirmed);
      }
      var e := executions[key];
      if e.contract.kind == WorkerResult && card.reported != ResultOf(e) {
        return Failure(ResultUnconfirmed);
      }
      if !Authorized(run, h, key, e) {
        return Failure(ResultUnconfirmed);
      }
      if e.contract.base != head {
        return Failure(ParentMismatch);
      }
      r := Success(ResultOf(e).value.head);
    }

    /** Publishes the first card of a phase, if the worktree still stands at the proven head. */
    method AdmitFirst(phase: Phase, parent: Option<nat>, head: Commit, t: Tick) returns (o: Outcome)
      modifies this`cards
      ensures o in {Proceed, Deferred, Raised(TaskRefused), Raised(HeadMismatch), Raised(DeliveryRefused)}
      ensures cards == if t.head == Some(head) && (phase.role == DELIVERY && run.manifest ==> t.mayDeliver)
                       then Created(old(cards), phase.key, 1, parent, t.create) else old(cards)
      ensures o == Proceed ==> Published(cards, phase.key, 1)
    {
      if t.head != Some(head) {
        return Raised(HeadMismatch);
      }
      if phase.role == DELIVERY && run.manifest && !t.mayDeliver {
        return Raised(DeliveryRefused);
      }
      o := CreateCard(phase.key, 1, parent, t.create);
    }

    /** A phase that is not done: recover its last attempt, wait for it, or admit it for the first time. */
    method AdvancePhase(phase: Phase, worker: Option<Card>, parent: Option<nat>, head: Commit, t: Tick)
      returns (ok: bool)
      modifies this`cards, this`executions, this`unblocked, this`blocked, this`abandoned
      ensures cards == Advanced(run, old(executions), phase, worker, parent, t, head, old(cards))
      ensures OnlyIntents(old(executions), executions)
      ensures !ok ==> blocked.Some? && blocked.value.key == phase.key
    {
      ghost var start := cards;
      assert start[..|start|] == start;
      var outcome := RouteRecovery(phase.key, worker, parent, t);
      if outcome == Refused {
        return false;
      }
      if outcome.Raised? {
        blocked := Some(Marker(phase.key, outcome.code));
        return false;
      }
      if outcome == Reissued {
        blocked := None;
      }
      if outcome != Proceed {
        return true;
      }
      if worker.None? {
        outcome := AdmitFirst(phase, parent, head, t);
        assert cards[..|start|] == start;
        if outcome.Raised? {
          blocked := Some(Marker(phase.key, outcome.code));
          return false;
        }
      }
      ok := true;
    }

    /** Files the accepted head of a review once; afterwards only confirms it. */
    method PersistAcceptedHead(accepted: Commit, t: Tick) returns (refusal: Option<Code>)
      modifies this`acceptedHead
      ensures refusal.None? <==> Confirms(t, old(acceptedHead), accepted)
      ensures refusal == Some(AcceptedHeadConflict) <==> Contradicts(t, old(acceptedHead), accepted)
      ensures acceptedHead == if refusal.None? then Some(accepted) else old(acceptedHead)
    {
      var recorded := if t.filedReadable then acceptedHead else None;
      if recorded.Some? {
        return if recorded.value == accepted then None else Some(AcceptedHeadConflict);
      }
      if !t.filingWorks {
        return Some(ResultUnconfirmed);
      }
      acceptedHead := Some(accepted);
      refusal := None;
    }

    /** A phase that is done: its result must count; a review's head is filed, and a delivery may still hold the run. */
    method PassPhase(phase: Phase, card: Card, head: Commit, t: Tick) returns (fine: bool, next: Option<Commit>)
      modifies this`blocked, this`acceptedHead
      ensures next.Some? <==> Passes(run, executions, phase, card, t, head, old(acceptedHead))
      ensures next.Some? ==> fine && blocked == old(blocked) && next.value == ResultOf(executions[phase.key]).value.head
      ensures acceptedHead ==
        if next.Some? then FiledAfter(run, phase, old(acceptedHead), next.value) else old(acceptedHead)
      ensures !fine ==> blocked.Some? || !t.delivered
      // Another head on file is a refusal of its own.
      ensures (&& Accepted(run, executions, phase, card, t, head) && FilesHead(run, phase)
               && Contradicts(t, old(acceptedHead), ResultOf(executions[phase.key]).value.head)) ==>
        !fine && blocked == Some(Marker(phase.key, AcceptedHeadConflict))
    {
      var counted := CountedResult(phase.key, card, head, t.history);
      if counted.Failure? {
        blocked := Some(Marker(phase.key, counted.error));
        return false, None;
      }
      if FilesHead(run, phase) {
        var refusal := PersistAcceptedHead(counted.value, t);
        if refusal.Some? {
          blocked := Some(Marker(phase.key, refusal.value));
          return false, None;
        }
      }
      if phase.role == DELIVERY && run.manifest {
        if !t.delivered {
          return false, None;
        }
        if !t.finishVerified {
          return true, None;
        }
      }
      fine, next := true, Some(counted.value);
    }

    method ReconcileSchedule(t: Tick) returns (ok: bool, ghost view: View, ghost r: Reach)
      modifies this`cards, this`executions, this`unblocked, this`blocked, this`abandoned, this`acceptedHead
      // Behind a live owner the tick only waits; a lock it cannot take refuses it.
      ensures t.authority != Held ==>
        cards == old(cards) && executions == old(executions) && (ok <==> t.authority == Busy)
      ensures t.authority == Busy ==> blocked == old(blocked)
      ensures t.authority == Held ==> Sees(view, old(cards), t.listed)
      // What the tick did to the cards and to the filed head, exactly, and what that means.
      ensures r == Reached(run, old(executions), view, t, old(acceptedHead))
      ensures cards == TickCards(run, old(executions), view, t, old(acceptedHead), old(cards))
      ensures acceptedHead == TickFiled(run, old(executions), view, t, old(acceptedHead))
      ensures t.authority == Held ==> AtMostOneCard(run, old(executions), view, t, r.at, r.head, old(cards), cards)
      ensures t.authority == Held ==>
        AcceptedHeadProven(run, t.history, old(executions), old(acceptedHead), acceptedHead)
      ensures OnlyIntents(old(executions), executions)
      // Another accepted head on file stops the tick, and the marker says so.
      ensures t.authority == Held && StopsInConflict(run, old(executions), view, t, r) ==>
        !ok && blocked == Some(Marker(Workers(run.phases)[r.at].key, AcceptedHeadConflict)) && cards == old(cards)
      // Past the last phase every phase counts, and only then is a run left unmarked and finished.
      ensures t.authority == Held && r.at == |Workers(run.phases)| && ok ==> blocked.None?
      // A refusal either leaves a marker that names its cause, or waits for the delivery to close.
      ensures !ok ==> blocked.Some? || !t.delivered || !t.closed
    {
      view := map[];
      r := Reached(run, executions, view, t, acceptedHead);
      if t.authority == Busy {
        ok := true;
        return;
      }
      if t.authority == Broken {
        blocked := Some(Marker("", ResultUnconfirmed));
        ok := false;
        return;
      }
      ghost var before, known, filed := cards, executions, acceptedHead;
      ok, view, r := ReconcileLocked(t);
      TickIsAtMostOneCard(run, known, view, t, filed, before);
      TickFilesProven(run, known, view, t, filed);
    }

    /** The tick while it holds the run authority. */
    method ReconcileLocked(t: Tick) returns (ok: bool, view: View, ghost r: Reach)
      requires t.authority == Held
      modifies this`cards, this`executions, this`unblocked, this`blocked, this`abandoned, this`acceptedHead
      ensures Sees(view, old(cards), t.listed)
      ensures r == Reached(run, old(executions), view, t, old(acceptedHead))
      ensures cards == TickCards(run, old(executions), view, t, old(acceptedHead), old(cards))
      ensures acceptedHead == r.filed
      ensures OnlyIntents(old(executions), executions)
      ensures StopsInConflict(run, old(executions), view, t, r) ==>
        !ok && blocked == Some(Marker(Workers(run.phases)[r.at].key, AcceptedHeadConflict)) && cards == old(cards)
      ensures r.at == |Workers(run.phases)| && ok ==> blocked.None?
      ensures !ok ==> blocked.Some? || !t.delivered || !t.closed
    {
      view := ListCards(cards, t.listed);
      var workers := WorkerPhases(run.phases);
      var at, head, parent, stop := PassDonePhases(workers, view, t);
      r := Reach(at, head, acceptedHead);
      if stop.Some? {
        return stop.value, view, r;
      }
      if at < |workers| {
        if LaterCard(workers, at, view) {
          blocked := Some(Marker(workers[at].key, OrderMismatch));
          return false, view, r;
        }
        ok := AdvancePhase(workers[at], WorkerOf(view, workers[at].key), parent, head, t);
        return ok, view, r;
      }
      if run.manifest && RoleKey(run.phases, DELIVERY) != [] && !t.closed {
        return false, view, r;
      }
      blocked := None;
      ok := true;
    }

    /** Walks over the phases that are done, up to the first that is not, or at which the tick ends. */
    method PassDonePhases(workers: seq<Phase>, view: View, t: Tick)
      returns (at: nat, head: Commit, parent: Option<nat>, stop: Option<bool>)
      requires workers == Workers(run.phases)
      modifies this`blocked, this`acceptedHead
      ensures Reach(at, head, acceptedHead) == Reached(run, executions, view, t, old(acceptedHead))
      ensures at < |workers| ==> (stop.Some? <==> DoneInView(view, workers[at].key))
      ensures at == |workers| ==> stop.None?
      ensures parent == ParentOf(view, workers, at)
      ensures stop == Some(false) ==> blocked.Some? || !t.delivered
      ensures StopsInConflict(run, executions, view, t, Reach(at, head, acceptedHead)) ==>
        stop == Some(false) && blocked == Some(Marker(workers[at].key, AcceptedHeadConflict))
    {
      at, head, parent, stop := 0, run.base, None, None;
      while at < |workers| && DoneInView(view, workers[at].key)
        invariant at <= |workers|
        invariant ReachFrom(run, executions, view, t, Reach(at, head, acceptedHead)) ==
                  Reached(run, executions, view, t, old(acceptedHead))
        invariant parent == ParentOf(view, workers, at)
      {
        var phase := workers[at];
        var fine, next := PassPhase(phase, view[phase.key], head, t);
        if next.None? {
          return at, head, parent, Some(fine);
        }
        head, parent, at := next.value, Some(view[phase.key].id), at + 1;
      }
    }
  }
}
