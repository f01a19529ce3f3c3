/**
 * The one way two attempts of a worktree become unresolved together.
 *
 * The collector writes its launch marker and then the uncertainty it announces.
 * When the second write fails and the failure is handled, the attempt ends
 * terminal and confirmed with its launch still pending; a later sweep takes the
 * confirmation back, by which time a peer may own the worktree.
 */
module TornWindow {
  import opened Common
  import opened ProcessCleanup
  import opened ExecutionRecords
  import opened Supervision
  import opened Ownership

  const CHILD := Identity(100, Some(7), 1, 1)
  const SUPERVISOR := Identity(50, Some(3), 1, 1)

  /** The first execution's attempt at the moments of its life that differ. */
  function AttemptAt(i: nat): Attempt {
    var initial := NewAttempt(1, None);
    if i <= 3 then initial
    else if i <= 5 then initial.(supervisor := Some(SUPERVISOR))
    else
      var running := initial.(supervisor := Some(SUPERVISOR), status := Running, client := Some(CHILD),
                              started := Some(0), deadline := Some(1));
      if i == 6 then running
      else if i <= 8 then running.(direct := [CHILD])
      else
        var exited := running.(direct := [CHILD], exitCode := Some(0), cleanup := Cleanup.Confirmed);
        if i <= 11 then exited
        else if i <= 15 then exited.(status := Exited, reason := Some(ResultInvalid))
        else exited.(status := Exited, reason := Some(ResultInvalid), cleanup := Unconfirmed)
  }

  function OwnerAt(i: nat): Owner {
    match i
    case 0 => Free
    case 1 => Loaded(None)
    case 2 => Authorized(None)
    case 3 => JustAdmitted
    case 4 => Registered
    case 5 => ClientSpawned(CHILD)
    case 6 => ClientLaunched(CHILD)
    case 7 => ClientOwned(CHILD)
    case 8 => ClientOwned(CHILD)
    case 9 => Collecting(false)
    case 10 => MarkerSet(false)
    case 11 => Ending(Exited, Some(ResultInvalid), None)
    case 12 => Free
    case 13 => SweepLoaded
    case 14 => SweepCleaned(true)
    case 15 => SweepMarked(false)
    case _ => Free
  }

  function StepAt(i: nat): Step {
    match i
    case 0 => AcquireDaemon(None)
    case 1 => Client(Begin)
    case 2 => Client(AdmitNow(true))
    case 3 => Client(RecordSupervisor(SUPERVISOR))
    case 4 => Client(SpawnClient(CHILD))
    case 5 => Client(RecordLaunch(0, 1))
    case 6 => Client(RecordRoots)
    case 7 => ProcessExit(CHILD)
    case 8 => Client(ClientExit(false, Some(0), None, true))
    case 9 => Collect(SetMarker)
    case 10 => Collect(FailWrite)
    case 11 => Client(Finish)
    case 12 => AcquireSweep
    case 13 => Sweep(Inspect(false, true))
    case 14 => Sweep(ClearMarker)
    case _ => Sweep(WriteOutcome)
  }

  function First(i: nat): Execution {
    Fresh(0, false).(
      record := Record(0, false, if i < 3 then [] else [AttemptAt(i)], None),
      marker := if i < 10 then None else Some(Marker(1, true, 1)),
      owner := OwnerAt(i),
      alive := if 5 <= i <= 7 then {CHILD} else {},
      born := if i < 5 then map[] else map[CHILD := 1],
      log := if i < 3 then [] else [WasAdmitted(1, None)],
      torn := i >= 11)
  }

  /** A write to the only attempt of a record, when nothing forbids it. */
  lemma OnlyAttemptWritten(e: Execution, c: Changes, next: Owner, failed: Owner)
    requires |e.record.attempts| == 1 && ValidAttempt(Patched(e.record.attempts[0], c), 0)
    requires !Terminal(e.record.attempts[0].status) || c.status.None?
    requires e.record.attempts[0].generation == 1
    requires c.supervisor.None? || e.record.attempts[0].supervisor.None?
    requires c.client.None? || e.record.attempts[0].client.None?
    requires c.started.None? || e.record.attempts[0].started.None?
    requires c.deadline.None? || e.record.attempts[0].deadline.None?
    requires c.exit.None? || (e.record.attempts[0].exitCode.None? && e.record.attempts[0].exitSignal.None?)
    requires c.direct.None? || e.record.attempts[0].direct <= c.direct.value
    ensures Write(e, c, next, failed) == e.(record := e.record.(attempts := [Patched(e.record.attempts[0], c)]),
                                            owner := next)
  {
    assert e.record.attempts[0 := Patched(e.record.attempts[0], c)] == [Patched(e.record.attempts[0], c)];
  }

  lemma FirstStepsEarly(i: nat)
    requires i < 3
    ensures Local(First(i), StepAt(i)) == Some(First(i + 1))
  {
    if i == 2 {
      assert Local(First(2), StepAt(2)).value.log == [WasAdmitted(1, None)];
    }
  }

  lemma FirstStepsLaunching(i: nat)
    requires 3 <= i < 6
    ensures Local(First(i), StepAt(i)) == Some(First(i + 1))
  {
    if i == 4 {
      assert Local(First(4), StepAt(4)).value.alive == {CHILD};
      assert Local(First(4), StepAt(4)).value.born == map[CHILD := 1];
    } else if i == 3 {
      OnlyAttemptWritten(First(3), KEEP.(supervisor := Some(SUPERVISOR)), Registered, Free);
    } else if i == 5 {
      OnlyAttemptWritten(First(5), LaunchReceipt(CHILD, 0, 1), ClientLaunched(CHILD), LOST_CLIENT);
    }
  }

  lemma FirstStepsMiddle(i: nat)
    requires 6 <= i < 8
    ensures Local(First(i), StepAt(i)) == Some(First(i + 1))
  {
    if i == 6 {
      OnlyAttemptWritten(First(6), KEEP.(direct := Some([CHILD])), ClientOwned(CHILD), LOST_CLIENT);
    } else {
      assert {CHILD} - {CHILD} == {};
    }
  }

  lemma FirstStepExits()
    ensures Local(First(8), StepAt(8)) == Some(First(9))
  {
    OnlyAttemptWritten(First(8), ExitReceipt(First(8), CHILD, false, Some(0), None, true), Collecting(false), Free);
  }

  lemma FirstStepsCollecting(i: nat)
    requires 9 <= i < 11
    ensures Local(First(i), StepAt(i)) == Some(First(i + 1))
  {
  }

  lemma FirstStepRefused()
    ensures Local(First(11), StepAt(11)) == Some(First(12))
  {
    OnlyAttemptWritten(First(11), KEEP.(status := Some(Exited), reason := Some(ResultInvalid)), Free, Free);
  }

  lemma FirstStepsLate(i: nat)
    requires 12 <= i < 16
    ensures Local(First(i), StepAt(i)) == Some(First(i + 1))
  {
    if i == 15 {
      OnlyAttemptWritten(First(15), SweepOutcome(First(15), false), Free, Free);
    }
  }

  lemma FirstSteps(i: nat)
    requires i < 16
    ensures Local(First(i), StepAt(i)) == Some(First(i + 1))
  {
    if i < 3 { FirstStepsEarly(i); }
    else if i < 6 { FirstStepsLaunching(i); }
    else if i < 8 { FirstStepsMiddle(i); }
    else if i == 8 { FirstStepExits(); }
    else if i < 11 { FirstStepsCollecting(i); }
    else if i == 11 { FirstStepRefused(); }
    else { FirstStepsLate(i); }
  }

  // A second execution on the same worktree, admitted and then crashed.

  function Second(j: nat): Execution {
    Fresh(0, false).(
      record := Record(0, false, if j < 3 then [] else [NewAttempt(1, None)], None),
      owner := match j
        case 0 => Free
        case 1 => Loaded(None)
        case 2 => Authorized(None)
        case 3 => JustAdmitted
        case _ => Free,
      log := if j < 3 then [] else [WasAdmitted(1, None)])
  }

  function SecondStep(j: nat): Step {
    match j
    case 0 => AcquireDaemon(None)
    case 1 => Client(Begin)
    case 2 => Client(AdmitNow(true))
    case _ => Crash
  }

  lemma SecondSteps(j: nat)
    requires j < 4
    ensures Local(Second(j), SecondStep(j)) == Some(Second(j + 1))
  {
    assert j == 2 ==> Local(Second(2), SecondStep(2)).value.log == [WasAdmitted(1, None)];
  }

  function Both(i: nat, j: nat): Root {
    map[0 := First(i), 1 := Second(j)]
  }

  lemma FirstMayAct(i: nat, j: nat)
    requires (i < 12 && j == 0) || (12 <= i < 16 && j == 4)
    ensures Allowed(Both(i, j), 0, StepAt(i))
  {
    assert Records(Both(i, j)) == map[0 := First(i).record, 1 := Second(j).record];
    assert j == 0 ==> PeersResolved(Records(Both(i, j)), 0);
  }

  lemma ActsOn(s: Root, id: ExecutionId, step: Step, after: Execution)
    requires id in s && Allowed(s, id, step) && Local(s[id], step) == Some(after)
    ensures Next(s, Act(id, step)) == Some(s[id := after])
  {
  }

  /** The first execution moves when the second is idle and resolved, or gone after a crash. */
  lemma FirstMoves(i: nat, j: nat)
    requires (i < 12 && j == 0) || (12 <= i < 16 && j == 4)
    ensures Next(Both(i, j), Act(0, StepAt(i))) == Some(Both(i + 1, j))
  {
    FirstSteps(i);
    FirstMayAct(i, j);
    ActsOn(Both(i, j), 0, StepAt(i), First(i + 1));
    assert Both(i, j)[0 := First(i + 1)] == Both(i + 1, j);
  }

  lemma SecondMoves(j: nat)
    requires j < 4
    ensures Next(Both(12, j), Act(1, SecondStep(j))) == Some(Both(12, j + 1))
  {
    SecondSteps(j);
    assert Both(12, j)[1 := Second(j + 1)] == Both(12, j + 1);
    assert Records(Both(12, j)) == map[0 := First(12).record, 1 := Second(j).record];
    assert PeersResolved(Records(Both(12, j)), 1);
  }

  lemma Extend(events: seq<Event>, s: Root, event: Event, t: Root)
    requires Reachable(s, events) && Next(s, event) == Some(t)
    ensures Reachable(t, events + [event])
  {
    RunAppend(map[], events, [event]);
    assert Run(s, [event]) == Run(t, []);
  }

  lemma {:induction false} FirstRuns(i: nat) returns (events: seq<Event>)
    requires i <= 12
    ensures Reachable(Both(i, 0), events)
  {
    if i == 0 {
      events := [Register(0, 0, false), Register(1, 0, false)];
      var one: Root := map[0 := Fresh(0, false)];
      assert Run(map[], []) == Some(map[]);
      Extend([], map[], Register(0, 0, false), one);
      assert Both(0, 0) == one[1 := Fresh(0, false)];
      Extend([Register(0, 0, false)], one, Register(1, 0, false), Both(0, 0));
      assert [Register(0, 0, false)] + [Register(1, 0, false)] == events;
    } else {
      events := FirstRuns(i - 1);
      FirstMoves(i - 1, 0);
      Extend(events, Both(i - 1, 0), Act(0, StepAt(i - 1)), Both(i, 0));
      events := events + [Act(0, StepAt(i - 1))];
    }
  }

  lemma {:induction false} SecondRuns(j: nat) returns (events: seq<Event>)
    requires j <= 4
    ensures Reachable(Both(12, j), events)
  {
    if j == 0 {
      events := FirstRuns(12);
    } else {
      events := SecondRuns(j - 1);
      SecondMoves(j - 1);
      Extend(events, Both(12, j - 1), Act(1, SecondStep(j - 1)), Both(12, j));
      events := events + [Act(1, SecondStep(j - 1))];
    }
  }

  lemma {:induction false} SweepRuns(i: nat) returns (events: seq<Event>)
    requires 12 <= i <= 16
    ensures Reachable(Both(i, 4), events)
  {
    if i == 12 {
      events := SecondRuns(4);
    } else {
      events := SweepRuns(i - 1);
      FirstMoves(i - 1, 4);
      Extend(events, Both(i - 1, 4), Act(0, StepAt(i - 1)), Both(i, 4));
      events := events + [Act(0, StepAt(i - 1))];
    }
  }

  /**
   * A concrete run that breaks the one-unresolved-attempt rule: the first
   * execution is torn, its peer is admitted and crashes, and the sweep reopens the first.
   */
  lemma TornMarkerBreaksExclusivity() returns (s: Root, events: seq<Event>)
    ensures Reachable(s, events) && Peers(s, 0, 1)
    ensures Unresolved(s[0].record) && Unresolved(s[1].record)
    ensures s[0].torn && !s[1].torn && s[0].alive == {} && s[1].alive == {}
  {
    events := SweepRuns(16);
    s := Both(16, 4);
  }
}
