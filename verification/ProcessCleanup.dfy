/**
 * Terminating recorded processes by birth identity, never by PID alone.
 *
 * The kernel is an oracle: every pass of the cleanup loop sees one `Round` of
 * observations and signal results. The loop may call a process ended only on
 * what it was shown.
 */
module ProcessCleanup {
  import opened Common

  /** A birth identity; `startTicks` is absent when the birth time could not be read. */
  datatype Identity = Identity(pid: int, startTicks: Option<int>, bootId: int, host: int)

  /** What one observation of an identity says: running, proven ended, or uncertain. */
  datatype Sight = Alive | Ended | Unknown

  datatype Signal = Term | Cont | Kill

  /** A signal was sent, was refused, or must be tried again within the allowance. */
  datatype Delivery = Sent | Refused | Retry

  /** One pass: the clock before and after observing, the observations, the signal results. */
  datatype Round = Round(
    before: int,
    now: int,
    sights: Identity -> Sight,
    delivery: (Identity, Signal) -> Delivery)

  /** A later birth with the same PID on the same boot proves the earlier process ended. */
  predicate SupersededBy(identity: Identity, other: Identity) {
    && identity.pid == other.pid
    && identity.host == other.host
    && identity.bootId == other.bootId
    && identity.startTicks.Some?
    && other.startTicks.Some?
    && identity.startTicks.value < other.startTicks.value
  }

  predicate Superseded(identity: Identity, known: seq<Identity>) {
    exists other :: other in known && SupersededBy(identity, other)
  }

  /** Every recorded identity is proven ended by the round, or by a later recorded birth. */
  ghost predicate ProvenEnded(known: seq<Identity>, round: Round) {
    forall identity :: identity in known ==>
      Superseded(identity, known) || round.sights(identity) == Ended
  }

  /** What a caller could see in one pass that forbids confirming. */
  ghost predicate DoubtAt(known: seq<Identity>, round: Round, deadline: int) {
    || round.before >= deadline
    || round.now >= deadline
    || (exists identity :: identity in known && round.sights(identity) == Unknown)
    || (exists identity, action :: identity in known && round.delivery(identity, action) == Refused)
  }

  /** The pass happened within the allowance; the first pass is always allowed. */
  predicate InTime(i: nat, round: Round, deadline: int) {
    i == 0 || (round.before < deadline && round.now < deadline)
  }

  /** Nothing before or at pass `k` casts doubt on the confirmation reached there. */
  ghost predicate ConfirmedAt(known: seq<Identity>, rounds: seq<Round>, deadline: int, k: nat)
    requires k < |rounds|
  {
    && known != []
    && ProvenEnded(known, rounds[k])
    && (forall i :: 0 <= i <= k ==> InTime(i, rounds[i], deadline))
    && (forall i, identity :: 0 <= i <= k && identity in known && !Superseded(identity, known) ==>
          rounds[i].sights(identity) != Unknown)
  }

  method ActiveOf(known: seq<Identity>) returns (active: seq<Identity>)
    ensures forall identity :: identity in active <==> identity in known && !Superseded(identity, known)
  {
    active := [];
    for i := 0 to |known|
      invariant forall identity :: identity in active <==> identity in known[..i] && !Superseded(identity, known)
    {
      var superseded := false;
      for j := 0 to |known|
        invariant superseded <==> exists k :: 0 <= k < j && SupersededBy(known[i], known[k])
      {
        superseded := superseded || SupersededBy(known[i], known[j]);
      }
      assert superseded <==> Superseded(known[i], known) by {
        if Superseded(known[i], known) {
          var other :| other in known && SupersededBy(known[i], other);
          var k :| 0 <= k < |known| && known[k] == other;
          assert SupersededBy(known[i], known[k]);
        }
      }
      assert known[..i + 1] == known[..i] + [known[i]];
      if !superseded { active := active + [known[i]]; }
    }
    assert known[..|known|] == known;
  }

  /** Observe every active identity once. */
  method Observe(active: seq<Identity>, round: Round) returns (living: seq<Identity>, doubt: bool)
    ensures doubt <==> exists identity :: identity in active && round.sights(identity) == Unknown
    ensures forall identity :: identity in living <==> identity in active && round.sights(identity) == Alive
  {
    living, doubt := [], false;
    for i := 0 to |active|
      invariant doubt <==> exists k :: 0 <= k < i && round.sights(active[k]) == Unknown
      invariant forall identity :: identity in living <==> identity in active[..i] && round.sights(identity) == Alive
    {
      assert active[..i + 1] == active[..i] + [active[i]];
      doubt := doubt || round.sights(active[i]) == Unknown;
      if round.sights(active[i]) == Alive { living := living + [active[i]]; }
    }
    assert active[..|active|] == active;
  }

  /** Signal the living, newest first, each (PID, signal) once unless delivery must be retried. */
  method SignalLiving(living: seq<Identity>, graceful: bool, round: Round, already: set<(int, Signal)>)
    returns (sent: set<(int, Signal)>, doubt: bool)
    ensures already <= sent
    ensures doubt ==> exists identity, action :: identity in living && round.delivery(identity, action) == Refused
    // Every living process got this pass's signal, unless the kernel asked to try again.
    ensures forall identity :: identity in living ==>
      Reached(identity, if graceful then Term else Kill, round, sent)
  {
    sent, doubt := already, false;
    var first := if graceful then Term else Kill;
    var i := |living|;
    while i > 0
      invariant 0 <= i <= |living|
      invariant already <= sent
      invariant doubt ==> exists identity, action :: identity in living && round.delivery(identity, action) == Refused
      invariant forall m :: i <= m < |living| ==> Reached(living[m], first, round, sent)
    {
      i := i - 1;
      var refused;
      sent, refused := SendOnce(living[i], first, round, sent);
      doubt := doubt || refused;
      if graceful {
        sent, refused := SendOnce(living[i], Cont, round, sent);
        doubt := doubt || refused;
      }
    }
  }

  predicate Reached(identity: Identity, action: Signal, round: Round, sent: set<(int, Signal)>) {
    (identity.pid, action) in sent || round.delivery(identity, action) == Retry
  }

  method SendOnce(identity: Identity, action: Signal, round: Round, already: set<(int, Signal)>)
    returns (sent: set<(int, Signal)>, refused: bool)
    ensures already <= sent <= already + {(identity.pid, action)}
    ensures refused <==> (identity.pid, action) !in already && round.delivery(identity, action) == Refused
    ensures Reached(identity, action, round, sent)
  {
    sent, refused := already, false;
    if (identity.pid, action) !in already {
      var delivered := round.delivery(identity, action);
      refused := delivered == Refused;
      if delivered != Retry { sent := sent + {(identity.pid, action)}; }
    }
  }

  /** Every pass so far was in time and no active identity was ever uncertain. */
  ghost predicate Clean(active: seq<Identity>, rounds: seq<Round>, deadline: int, r: nat)
    requires r <= |rounds|
  {
    forall i :: 0 <= i < r ==> InTime(i, rounds[i], deadline) && !SomeUnknown(active, rounds[i])
  }

  ghost predicate SomeUnknown(active: seq<Identity>, round: Round) {
    exists identity :: identity in active && round.sights(identity) == Unknown
  }

  ghost predicate SomeDoubt(known: seq<Identity>, rounds: seq<Round>, deadline: int) {
    known == [] || exists i :: 0 <= i < |rounds| && DoubtAt(known, rounds[i], deadline)
  }

  /**
   * Terminate recorded owners within the allowance. `rounds` is what the kernel
   * and clock will show, up to the pass that sees the deadline go by.
   */
  method CleanupProcesses(known: seq<Identity>, started: int, timeout: nat, rounds: seq<Round>)
    returns (confirmed: bool, ghost settled: nat)
    requires rounds != [] && rounds[|rounds| - 1].now >= started + timeout
    ensures settled < |rounds|
    // Soundness: every recorded process is proven ended, in time, with no doubt on the way.
    ensures confirmed ==> ConfirmedAt(known, rounds, started + timeout, settled)
    // Completeness: a refusal to confirm always has a cause the caller could see.
    ensures !confirmed ==> SomeDoubt(known, rounds, started + timeout)
    // Processes already gone at the first look are confirmed even with a zero allowance.
    ensures ConfirmedAt(known, rounds, started + timeout, 0) ==> confirmed
  {
    var deadline := started + timeout;
    var gracefulEnd := started + (if 5000 <= timeout / 2 then 5000 else timeout / 2);
    var uncertain := known == [];
    var active := ActiveOf(known);
    var sent: set<(int, Signal)> := {};
    var r := 0;
    while true
      invariant 0 <= r < |rounds|
      invariant r > 0 ==> !ConfirmedAt(known, rounds, deadline, 0)
      invariant uncertain ==> SomeDoubt(known, rounds, deadline)
      invariant known == [] ==> uncertain
      invariant r == 0 ==> uncertain == (known == [])
      invariant !uncertain ==> Clean(active, rounds, deadline, r)
      decreases |rounds| - r
    {
      var round := rounds[r];
      if r > 0 && round.before >= deadline {
        uncertain := true;
        assert DoubtAt(known, rounds[r], deadline);
        break;
      }
      var living, doubt := Observe(active, round);
      if doubt {
        uncertain := true;
        assert DoubtAt(known, rounds[r], deadline);
      }
      if r > 0 && round.now >= deadline {
        uncertain := true;
        assert DoubtAt(known, rounds[r], deadline);
        break;
      }
      if living == [] {
        if !uncertain { SettledIsConfirmed(known, active, rounds, deadline, r); }
        break;
      }
      assert living[0] in living && round.sights(living[0]) == Alive;
      var refused;
      sent, refused := SignalLiving(living, round.now < gracefulEnd, round, sent);
      if refused {
        uncertain := true;
        assert DoubtAt(known, rounds[r], deadline);
      }
      if round.now >= deadline {
        uncertain := true;
        assert DoubtAt(known, rounds[r], deadline);
        break;
      }
      r := r + 1;
    }
    confirmed, settled := !uncertain, r;
  }

  lemma SettledIsConfirmed(known: seq<Identity>, active: seq<Identity>, rounds: seq<Round>, deadline: int, r: nat)
    requires r < |rounds| && known != []
    requires forall identity :: identity in active <==> identity in known && !Superseded(identity, known)
    requires Clean(active, rounds, deadline, r)
    requires InTime(r, rounds[r], deadline) && !SomeUnknown(active, rounds[r])
    requires forall identity :: identity in active ==> rounds[r].sights(identity) != Alive
    ensures ConfirmedAt(known, rounds, deadline, r)
  {
    assert ProvenEnded(known, rounds[r]) by {
      forall identity | identity in known
        ensures Superseded(identity, known) || rounds[r].sights(identity) == Ended
      {
        if !Superseded(identity, known) {
          assert identity in active;
        }
      }
    }
  }

  /**
   * What the kernel guarantees about `alive`: an identity seen ended is not alive,
   * and one PID of one boot names at most the latest of its recorded births.
   */
  ghost predicate KernelTruth(alive: set<Identity>, known: seq<Identity>, round: Round) {
    && (forall identity :: identity in known && round.sights(identity) == Ended ==> identity !in alive)
    && (forall identity, other :: identity in known && other in known && SupersededBy(identity, other) ==>
          identity !in alive)
  }

  /** A confirmed cleanup leaves no recorded process alive; sweeps and daemons rely on this. */
  lemma ConfirmedLeavesNoneAlive(known: seq<Identity>, rounds: seq<Round>, deadline: int, k: nat, alive: set<Identity>)
    requires k < |rounds| && ConfirmedAt(known, rounds, deadline, k)
    requires KernelTruth(alive, known, rounds[k])
    ensures forall identity :: identity in known ==> identity !in alive
  {
    forall identity | identity in known
      ensures identity !in alive
    {
      if Superseded(identity, known) {
        var other :| other in known && SupersededBy(identity, other);
      }
    }
  }
}
