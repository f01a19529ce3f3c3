/**
 * When two attempts of one worktree can become unresolved together, read off the durable state.
 *
 * With no owner at work on the worktree and no further failed write handled in the launch
 * window of one of its collections, it can happen exactly when it has happened already, or some resolved attempt of the
 * worktree still has a launch pending.
 */
module TornExactly {
  import opened Common
  import opened ProcessCleanup
  import opened ExecutionRecords
  import opened Supervision
  import opened Ownership
  import opened TornWindow
  import R = Recovery

  /** Resolved by its record, and yet with a launch pending: both are durable and can be read. */
  predicate Armed(e: Execution) {
    e.record.attempts != [] && Resolved(Last(e.record)) && PendingLaunch(e)
  }

  ghost predicate SomeArmed(s: Root, worktree: Worktree) {
    exists id :: id in s && s[id].record.worktree == worktree && Armed(s[id])
  }

  ghost predicate TwoUnresolved(s: Root, worktree: Worktree) {
    exists a, b ::
      Peers(s, a, b) && s[a].record.worktree == worktree && Unresolved(s[a].record) && Unresolved(s[b].record)
  }

  /** The write after the launch marker fails, in a collection on this worktree, and is handled. */
  predicate HandledFailure(s: Root, event: Event, worktree: Worktree) {
    && event.Act? && event.step == Collect(FailWrite) && event.id in s
    && s[event.id].record.worktree == worktree && s[event.id].owner.MarkerSet?
  }

  /** No such failure happens on the way. */
  predicate Unfailing(s: Root, events: seq<Event>, worktree: Worktree)
    decreases |events|
  {
    events != [] ==>
      && !HandledFailure(s, events[0], worktree)
      && (Next(s, events[0]).Some? ==> Unfailing(Next(s, events[0]).value, events[1..], worktree))
  }

  /** A continuation without a further such failure that ends with two unresolved attempts. */
  ghost predicate Leads(s: Root, more: seq<Event>, worktree: Worktree) {
    Unfailing(s, more, worktree) && Run(s, more).Some? && TwoUnresolved(Run(s, more).value, worktree)
  }

  // ----- four steps that reopen an armed attempt, and four that leave a new peer behind -----

  lemma RunOfFour(s0: Root, e0: Event, s1: Root, e1: Event, s2: Root, e2: Event, s3: Root, e3: Event, s4: Root)
    requires Next(s0, e0) == Some(s1) && Next(s1, e1) == Some(s2) && Next(s2, e2) == Some(s3)
    requires Next(s3, e3) == Some(s4)
    ensures Run(s0, [e0, e1, e2, e3]) == Some(s4)
  {
    assert [e0, e1, e2, e3][1..] == [e1, e2, e3] && [e1, e2, e3][1..] == [e2, e3] && [e2, e3][1..] == [e3];
    assert Run(s4, []) == Some(s4);
    assert Run(s3, [e3]) == Some(s4);
    assert Run(s2, [e2, e3]) == Some(s4);
    assert Run(s1, [e1, e2, e3]) == Some(s4);
  }

  function SweepOf(id: ExecutionId): seq<Event> {
    [Act(id, AcquireSweep), Act(id, Sweep(Inspect(false, false))),
     Act(id, Sweep(ClearMarker)), Act(id, Sweep(WriteOutcome))]
  }

  lemma ReopenedRecord(e: Execution)
    requires ValidRecord(e.record) && e.record.attempts != [] && Resolved(Last(e.record))
    ensures var r := UpdateAttempt(e.record, Generation(e), KEEP.(cleanup := Some(Unconfirmed)));
      r.Success? && Unresolved(r.value) && r.value.worktree == e.record.worktree
  {
  }

  /** A sweep of an armed attempt that cannot confirm takes the confirmation back. */
  lemma SweepReopens(s: Root, id: ExecutionId) returns (t: Root)
    requires id in s && Sound(s[id]) && Armed(s[id]) && WorktreeFree(s, s[id].record.worktree)
    ensures Run(s, SweepOf(id)) == Some(t)
    ensures t.Keys == s.Keys && forall other :: other in s && other != id ==> t[other] == s[other]
    ensures Unresolved(t[id].record) && t[id].record.worktree == s[id].record.worktree
  {
    var e := s[id];
    ReopenedRecord(e);
    var e1 := e.(owner := SweepLoaded);
    var e2 := e.(owner := SweepCleaned(false));
    var e3 := e.(owner := SweepMarked(false));
    var e4 := Write(e3, SweepOutcome(e3, false), Free, Free);
    ActsOn(s, id, AcquireSweep, e1);
    ActsOn(s[id := e1], id, Sweep(Inspect(false, false)), e2);
    ActsOn(s[id := e2], id, Sweep(ClearMarker), e3);
    ActsOn(s[id := e3], id, Sweep(WriteOutcome), e4);
    assert s[id := e1][id := e2] == s[id := e2] && s[id := e2][id := e3] == s[id := e3];
    t := s[id := e4];
    assert s[id := e3][id := e4] == t;
    RunOfFour(s, Act(id, AcquireSweep), s[id := e1], Act(id, Sweep(Inspect(false, false))), s[id := e2],
              Act(id, Sweep(ClearMarker)), s[id := e3], Act(id, Sweep(WriteOutcome)), t);
  }

  function AdmissionOf(id: ExecutionId): seq<Event> {
    [Act(id, AcquireDaemon(None)), Act(id, Client(Begin)), Act(id, Client(AdmitNow(true))), Act(id, Crash)]
  }

  /** A first attempt is admitted and its daemon lost. */
  lemma AdmissionIsLost(s: Root, id: ExecutionId) returns (t: Root)
    requires id in s && s[id].record.attempts == [] && s[id].owner.Free?
    requires WorktreeFree(s, s[id].record.worktree) && PeersResolved(Records(s), id)
    ensures Run(s, AdmissionOf(id)) == Some(t)
    ensures t.Keys == s.Keys && forall other :: other in s && other != id ==> t[other] == s[other]
    ensures Unresolved(t[id].record) && t[id].owner.Free? && t[id].record.worktree == s[id].record.worktree
  {
    var e := s[id];
    var e1 := e.(owner := Loaded(None));
    var e2 := e.(owner := Authorized(None));
    var e3 := AdmitAttempt(e2, None, true);
    var e4 := Release(e3);
    assert Records(s[id := e2]) == Records(s);
    ActsOn(s, id, AcquireDaemon(None), e1);
    ActsOn(s[id := e1], id, Client(Begin), e2);
    ActsOn(s[id := e2], id, Client(AdmitNow(true)), e3);
    ActsOn(s[id := e3], id, Crash, e4);
    assert s[id := e1][id := e2] == s[id := e2] && s[id := e2][id := e3] == s[id := e3];
    t := s[id := e4];
    assert s[id := e3][id := e4] == t;
    RunOfFour(s, Act(id, AcquireDaemon(None)), s[id := e1], Act(id, Client(Begin)), s[id := e2],
              Act(id, Client(AdmitNow(true))), s[id := e3], Act(id, Crash), t);
  }

  lemma {:induction false} UnfailingAppend(s: Root, a: seq<Event>, t: Root, b: seq<Event>, worktree: Worktree)
    requires Unfailing(s, a, worktree) && Run(s, a) == Some(t) && Unfailing(t, b, worktree)
    ensures Unfailing(s, a + b, worktree)
    decreases |a|
  {
    if a == [] {
      assert a + b == b;
    } else {
      assert (a + b)[0] == a[0] && (a + b)[1..] == a[1..] + b;
      UnfailingAppend(Next(s, a[0]).value, a[1..], t, b, worktree);
    }
  }

  /** Where no write fails at all, none fails in the launch window. */
  lemma {:induction false} WithoutFailures(s: Root, events: seq<Event>, worktree: Worktree)
    requires forall event :: event in events ==> !(event.Act? && event.step == Collect(FailWrite))
    ensures Unfailing(s, events, worktree)
    decreases |events|
  {
    if events != [] {
      assert events[0] in events;
      if Next(s, events[0]).Some? {
        WithoutFailures(Next(s, events[0]).value, events[1..], worktree);
      }
    }
  }

  /** An execution is registered on the worktree, admitted, and lost. */
  lemma PeerIsLost(s: Root, worktree: Worktree) returns (id: ExecutionId, events: seq<Event>, t: Root)
    requires WorktreeFree(s, worktree) && RootSound(s)
    requires forall other :: other in s && s[other].record.worktree == worktree ==> !Unresolved(s[other].record)
    ensures Unfailing(s, events, worktree) && Run(s, events) == Some(t)
    ensures id !in s && id in t && Unresolved(t[id].record) && t[id].record.worktree == worktree && t[id].owner.Free?
    ensures forall other :: other in s ==> other in t && t[other] == s[other]
    ensures t.Keys == s.Keys + {id}
  {
    id := NewNumber(s.Keys);
    var registered := s[id := Fresh(worktree, false)];
    NoUnresolvedPeers(s, id, worktree);
    t := AdmissionIsLost(registered, id);
    var register := Register(id, worktree, false);
    events := [register] + AdmissionOf(id);
    assert Next(s, register) == Some(registered);
    assert events[0] == register && events[1..] == AdmissionOf(id);
    WithoutFailures(s, events, worktree);
  }

  lemma NoUnresolvedPeers(s: Root, id: ExecutionId, worktree: Worktree)
    requires RootSound(s) && id !in s
    requires forall other :: other in s && s[other].record.worktree == worktree ==> !Unresolved(s[other].record)
    ensures PeersResolved(Records(s[id := Fresh(worktree, false)]), id)
  {
    var records := Records(s[id := Fresh(worktree, false)]);
    forall other | other in records && other != id && records[other].worktree == records[id].worktree
      ensures !HasUnresolvedAttempt(records[other])
    {
      assert records[other] == s[other].record && History(s[other]);
    }
  }

  lemma ArmedBesideUnresolved(s: Root, a: ExecutionId, other: ExecutionId) returns (more: seq<Event>)
    requires RootSound(s) && Peers(s, a, other) && WorktreeFree(s, s[a].record.worktree)
    requires Armed(s[a]) && Unresolved(s[other].record)
    ensures Leads(s, more, s[a].record.worktree)
  {
    var t := SweepReopens(s, a);
    more := SweepOf(a);
    WithoutFailures(s, more, s[a].record.worktree);
    assert Peers(t, a, other);
  }

  lemma LeadsAfter(s: Root, events: seq<Event>, t: Root, more: seq<Event>, worktree: Worktree)
    requires Unfailing(s, events, worktree) && Run(s, events) == Some(t) && Leads(t, more, worktree)
    ensures Leads(s, events + more, worktree)
  {
    RunAppend(s, events, more);
    UnfailingAppend(s, events, t, more, worktree);
  }

  lemma ArmedAlone(s: Root, a: ExecutionId, worktree: Worktree) returns (more: seq<Event>)
    requires RootSound(s) && WorktreeFree(s, worktree) && a in s && s[a].record.worktree == worktree && Armed(s[a])
    requires forall other :: other in s && s[other].record.worktree == worktree ==> !Unresolved(s[other].record)
    ensures Leads(s, more, worktree)
  {
    var id, events, t := PeerIsLost(s, worktree);
    RunSound(s, events);
    assert Peers(t, a, id);
    var rest := ArmedBesideUnresolved(t, a, id);
    more := events + rest;
    LeadsAfter(s, events, t, rest, worktree);
  }

  /** From any sound root at rest with an armed attempt, two unresolved attempts are reached. */
  lemma ArmedLeads(s: Root, worktree: Worktree) returns (more: seq<Event>)
    requires RootSound(s) && WorktreeFree(s, worktree) && SomeArmed(s, worktree)
    ensures Leads(s, more, worktree)
  {
    var a :| a in s && s[a].record.worktree == worktree && Armed(s[a]);
    if other :| other in s && s[other].record.worktree == worktree && Unresolved(s[other].record) {
      assert Peers(s, a, other);
      more := ArmedBesideUnresolved(s, a, other);
    } else {
      more := ArmedAlone(s, a, worktree);
    }
  }

  // ----- the history flag does not steer a run -----

  ghost predicate SameButTorn(s: Root, t: Root) {
    t.Keys == s.Keys && forall id :: id in s ==> t[id] == s[id].(torn := t[id].torn)
  }

  /** The step does the same to an execution whose flag is set differently. */
  ghost predicate Ignores(e: Execution, torn: bool, step: Step) {
    var x, y := Local(e, step), Local(e.(torn := torn), step);
    (x.None? <==> y.None?) && (x.Some? ==> y.value == x.value.(torn := y.value.torn))
  }

  lemma ConsumeIgnoresTorn(e: Execution, torn: bool, event: EventId, evidence: R.Evidence)
    ensures ConsumeEvent(e.(torn := torn), event, evidence) == ConsumeEvent(e, event, evidence).(torn := torn)
  {
  }

  lemma ClientIgnoresTorn(e: Execution, torn: bool, s: ClientStep)
    ensures Ignores(e, torn, Client(s))
  {
    if s.Consume? && e.owner.Loaded? && e.owner.request.Some? {
      ConsumeIgnoresTorn(e, torn, e.owner.request.value, s.evidence);
    }
  }

  lemma CollectIgnoresTorn(e: Execution, torn: bool, s: CollectStep)
    ensures Ignores(e, torn, Collect(s))
  {
  }

  lemma SweepIgnoresTorn(e: Execution, torn: bool, s: SweepStep)
    ensures Ignores(e, torn, Sweep(s))
  {
  }

  lemma LocalIgnoresTorn(e: Execution, torn: bool, step: Step)
    ensures Ignores(e, torn, step)
  {
    match step
    case Client(s) => ClientIgnoresTorn(e, torn, s);
    case Collect(s) => CollectIgnoresTorn(e, torn, s);
    case Sweep(s) => SweepIgnoresTorn(e, torn, s);
    case _ =>
  }

  lemma NextIgnoresTorn(s: Root, t: Root, event: Event)
    requires SameButTorn(s, t) && Next(s, event).Some?
    ensures Next(t, event).Some? && SameButTorn(Next(s, event).value, Next(t, event).value)
  {
    if event.Act? {
      assert Records(s) == Records(t);
      LocalIgnoresTorn(s[event.id], t[event.id].torn, event.step);
    }
  }

  lemma {:induction false} RunIgnoresTorn(s: Root, t: Root, events: seq<Event>, worktree: Worktree)
    requires SameButTorn(s, t) && Run(s, events).Some? && Unfailing(s, events, worktree)
    ensures Run(t, events).Some? && SameButTorn(Run(s, events).value, Run(t, events).value)
    ensures Unfailing(t, events, worktree)
    decreases |events|
  {
    if events != [] {
      NextIgnoresTorn(s, t, events[0]);
      RunIgnoresTorn(Next(s, events[0]).value, Next(t, events[0]).value, events[1..], worktree);
    }
  }

  // ----- without a handled failure the flag stays down -----

  ghost predicate Untorn(s: Root, worktree: Worktree) {
    forall id :: id in s && s[id].record.worktree == worktree ==> !s[id].torn
  }

  lemma UncertaintyIsWritten(e: Execution)
    requires Sound(e) && e.owner.MarkerSet?
    ensures Write(e, KEEP.(cleanup := Some(Unconfirmed)), Uncertain(e.owner.late),
                  Abandoned(e.owner.late, ResultInvalid)).owner.Uncertain?
  {
    var c := KEEP.(cleanup := Some(Unconfirmed));
    var n := |e.record.attempts| - 1;
    assert ValidAttempt(e.record.attempts[n], n);
    assert ValidAttempt(Patched(e.record.attempts[n], c), n);
    assert ValidRecord(e.record.(attempts := e.record.attempts[n := Patched(e.record.attempts[n], c)]));
  }

  lemma NoNewTear(e: Execution, step: Step)
    requires Sound(e) && !e.torn && !(step == Collect(FailWrite) && e.owner.MarkerSet?) && Local(e, step).Some?
    ensures !Local(e, step).value.torn
  {
    match step
    case Client(s) => ClientKeepsTorn(e, s);
    case Collect(s) => if s.MarkUncertain? { UncertaintyIsWritten(e); }
    case _ =>
  }

  lemma ClientKeepsTorn(e: Execution, s: ClientStep)
    requires DoClient(e, s).Some?
    ensures DoClient(e, s).value.torn == e.torn
  {
  }

  lemma NextKeepsUntorn(s: Root, worktree: Worktree, event: Event)
    requires RootSound(s) && Untorn(s, worktree) && !HandledFailure(s, event, worktree) && Next(s, event).Some?
    ensures Untorn(Next(s, event).value, worktree)
  {
    if event.Act? {
      StepSound(s[event.id], event.step);
      if s[event.id].record.worktree == worktree {
        NoNewTear(s[event.id], event.step);
      }
    }
  }

  lemma {:induction false} RunKeepsUntorn(s: Root, worktree: Worktree, events: seq<Event>)
    requires RootSound(s) && Untorn(s, worktree) && Unfailing(s, events, worktree) && Run(s, events).Some?
    ensures RootSound(Run(s, events).value) && Untorn(Run(s, events).value, worktree)
    decreases |events|
  {
    if events != [] {
      NextSound(s, events[0]);
      NextKeepsUntorn(s, worktree, events[0]);
      RunKeepsUntorn(Next(s, events[0]).value, worktree, events[1..]);
    }
  }

  // ----- a root at rest without armed and without stuck attempts -----

  /** An unfinished attempt whose pending launch is older than itself: no sweep can ever confirm it. */
  predicate StalePending(e: Execution) {
    && e.record.attempts != [] && !Resolved(Last(e.record))
    && PendingLaunch(e) && e.marker.value.generation < Generation(e)
  }

  function Cleared(s: Root, worktree: Worktree): Root {
    map id | id in s :: if s[id].record.worktree == worktree then s[id].(torn := false) else s[id]
  }

  lemma RestIsSoundUntorn(e: Execution)
    requires Sound(e) && e.owner.Free? && !Armed(e) && !StalePending(e)
    ensures Sound(e.(torn := false))
  {
  }

  lemma ClearedIsSound(s: Root, worktree: Worktree)
    requires RootSound(s) && WorktreeFree(s, worktree) && !TwoUnresolved(s, worktree) && !SomeArmed(s, worktree)
    requires forall id :: id in s && s[id].record.worktree == worktree ==> !StalePending(s[id])
    ensures RootSound(Cleared(s, worktree)) && Untorn(Cleared(s, worktree), worktree)
    ensures SameButTorn(s, Cleared(s, worktree))
  {
    var t := Cleared(s, worktree);
    forall id | id in t
      ensures Sound(t[id])
    {
      if s[id].record.worktree == worktree {
        RestIsSoundUntorn(s[id]);
      }
    }
    forall a, b | Peers(t, a, b)
      ensures t[a].owner.Free? || t[b].owner.Free?
      ensures IsDaemon(t[a].owner) ==> t[b].alive == {}
      ensures t[a].alive == {} || t[b].alive == {}
      ensures Unresolved(t[a].record) && Unresolved(t[b].record) ==> t[a].torn || t[b].torn
    {
      assert Peers(s, a, b);
    }
  }

  lemma UnresolvedIgnoresTorn(s: Root, t: Root, worktree: Worktree)
    requires SameButTorn(s, t) && TwoUnresolved(s, worktree)
    ensures TwoUnresolved(t, worktree)
  {
    var a, b :|
      Peers(s, a, b) && s[a].record.worktree == worktree && Unresolved(s[a].record) && Unresolved(s[b].record);
    assert Peers(t, a, b);
  }

  lemma CalmLeadsNowhere(s: Root, worktree: Worktree, more: seq<Event>)
    requires RootSound(s) && WorktreeFree(s, worktree) && !TwoUnresolved(s, worktree) && !SomeArmed(s, worktree)
    requires forall id :: id in s && s[id].record.worktree == worktree ==> !StalePending(s[id])
    ensures !Leads(s, more, worktree)
  {
    if Unfailing(s, more, worktree) && Run(s, more).Some? {
      var c := Cleared(s, worktree);
      ClearedIsSound(s, worktree);
      RunIgnoresTorn(s, c, more, worktree);
      RunKeepsUntorn(c, worktree, more);
      var t := Run(c, more).value;
      if TwoUnresolved(Run(s, more).value, worktree) {
        UnresolvedIgnoresTorn(Run(s, more).value, t, worktree);
      }
    }
  }

  // ----- a root at rest with a stuck attempt -----

  /** The stuck attempt, wherever its owner stands: nothing lets its daemon admit or its sweep confirm. */
  predicate Stuck(e: Execution) {
    && ValidRecord(e.record) && StalePending(e)
    && (|| e.owner.Free? || e.owner.Loaded? || e.owner.SweepLoaded? || e.owner.SweepCleaned?
        || e.owner == SweepMarked(false))
  }

  predicate Settled(e: Execution) {
    && (e.record.attempts == [] || Resolved(Last(e.record)))
    && !PendingLaunch(e)
    && (e.owner.Free? || e.owner.SweepLoaded?)
  }

  lemma StuckStays(e: Execution, step: Step)
    requires Stuck(e) && Local(e, step).Some?
    ensures Stuck(Local(e, step).value) && Local(e, step).value.record.worktree == e.record.worktree
  {
    match step
    case Client(s) => StuckClient(e, s);
    case Sweep(s) => StuckSweep(e, s);
    case _ =>
  }

  lemma StuckClient(e: Execution, s: ClientStep)
    requires Stuck(e) && DoClient(e, s).Some?
    ensures Stuck(DoClient(e, s).value) && DoClient(e, s).value.record.worktree == e.record.worktree
  {
    assert s.Begin? || s.Consume?;
  }

  lemma StuckSweep(e: Execution, s: SweepStep)
    requires Stuck(e) && DoSweep(e, s).Some?
    ensures Stuck(DoSweep(e, s).value) && DoSweep(e, s).value.record.worktree == e.record.worktree
  {
    if s.WriteOutcome? {
      StuckOutcome(e);
    }
  }

  lemma StuckOutcome(e: Execution)
    requires Stuck(e) && e.owner == SweepMarked(false)
    ensures var after := Write(e, SweepOutcome(e, false), Free, Free);
      Stuck(after) && after.record.worktree == e.record.worktree
  {
    var c := SweepOutcome(e, false);
    var r := UpdateAttempt(e.record, Generation(e), c);
    if r.Success? {
      assert Last(r.value) == Patched(Last(e.record), c);
    }
  }

  lemma SettledStays(e: Execution, step: Step)
    requires Settled(e) && !step.AcquireDaemon? && Local(e, step).Some?
    ensures Settled(Local(e, step).value) && Local(e, step).value.record.worktree == e.record.worktree
  {
  }

  ghost predicate Blocked(s: Root, worktree: Worktree, a: ExecutionId) {
    && a in s && s[a].record.worktree == worktree && Stuck(s[a])
    && forall id :: id in s && id != a && s[id].record.worktree == worktree ==> Settled(s[id])
  }

  lemma LocalKeepsWorktree(e: Execution, step: Step)
    requires Sound(e) && Local(e, step).Some?
    ensures Local(e, step).value.record.worktree == e.record.worktree
  {
    StepSound(e, step);
  }

  lemma BlockedRefusesPeers(s: Root, worktree: Worktree, a: ExecutionId, id: ExecutionId)
    requires Blocked(s, worktree, a) && id in s && id != a && s[id].record.worktree == worktree
    ensures !PeersResolved(Records(s), id)
  {
    var r := Records(s)[a];
    assert r == s[a].record && !Resolved(r.attempts[|r.attempts| - 1]);
    assert HasUnresolvedAttempt(Records(s)[a]);
  }

  lemma NextKeepsBlocked(s: Root, worktree: Worktree, a: ExecutionId, event: Event)
    requires RootSound(s) && Blocked(s, worktree, a) && Next(s, event).Some?
    ensures Blocked(Next(s, event).value, worktree, a)
  {
    if event.Act? {
      var id := event.id;
      LocalKeepsWorktree(s[id], event.step);
      if id == a {
        StuckStays(s[a], event.step);
      } else if s[id].record.worktree == worktree {
        BlockedRefusesPeers(s, worktree, a, id);
        SettledStays(s[id], event.step);
      }
    }
  }

  lemma {:induction false} RunKeepsBlocked(s: Root, worktree: Worktree, a: ExecutionId, events: seq<Event>)
    requires RootSound(s) && Blocked(s, worktree, a) && Run(s, events).Some?
    ensures Blocked(Run(s, events).value, worktree, a)
    decreases |events|
  {
    if events != [] {
      NextSound(s, events[0]);
      NextKeepsBlocked(s, worktree, a, events[0]);
      RunKeepsBlocked(Next(s, events[0]).value, worktree, a, events[1..]);
    }
  }

  lemma BlockedHasOne(s: Root, worktree: Worktree, a: ExecutionId)
    requires Blocked(s, worktree, a)
    ensures !TwoUnresolved(s, worktree)
  {
  }

  lemma StuckLeadsNowhere(s: Root, worktree: Worktree, a: ExecutionId, more: seq<Event>)
    requires RootSound(s) && WorktreeFree(s, worktree) && !TwoUnresolved(s, worktree) && !SomeArmed(s, worktree)
    requires a in s && s[a].record.worktree == worktree && StalePending(s[a])
    ensures !Leads(s, more, worktree)
  {
    forall id | id in s && id != a && s[id].record.worktree == worktree
      ensures Settled(s[id])
    {
      assert Peers(s, a, id) && !Armed(s[id]) && Sound(s[id]);
    }
    assert Sound(s[a]);
    if Run(s, more).Some? {
      RunKeepsBlocked(s, worktree, a, more);
      BlockedHasOne(Run(s, more).value, worktree, a);
    }
  }

  // ----- the exact condition -----

  /**
   * In every reachable root with no owner at work on the worktree: a continuation in which no
   * write fails in a launch window of that worktree and is handled has two unresolved attempts
   * there if and only if there are two already, or some attempt is resolved while its launch is
   * still pending.
   */
  lemma ExclusivityIsLostExactly(s: Root, events: seq<Event>, worktree: Worktree)
    requires Reachable(s, events) && WorktreeFree(s, worktree)
    ensures (exists more :: Leads(s, more, worktree)) <==> TwoUnresolved(s, worktree) || SomeArmed(s, worktree)
  {
    RunSound(map[], events);
    if TwoUnresolved(s, worktree) {
      assert Run(s, []) == Some(s);
      assert Leads(s, [], worktree);
    } else if SomeArmed(s, worktree) {
      var more := ArmedLeads(s, worktree);
    } else {
      forall more
        ensures !Leads(s, more, worktree)
      {
        if a :| a in s && s[a].record.worktree == worktree && StalePending(s[a]) {
          StuckLeadsNowhere(s, worktree, a, more);
        } else {
          CalmLeadsNowhere(s, worktree, more);
        }
      }
    }
  }

  /** The condition is met: the handled failure of the concrete run leaves such an attempt, and nothing else yet. */
  lemma HandledFailureArms() returns (s: Root, events: seq<Event>)
    ensures Reachable(s, events) && WorktreeFree(s, 0) && !TwoUnresolved(s, 0)
    ensures 0 in s && Armed(s[0]) && SomeArmed(s, 0)
  {
    events := FirstRuns(12);
    s := Both(12, 0);
    assert Armed(s[0]);
  }
}
