/**
 * The drive of one pinned run: tick after tick until the board fails, is delivered, stops
 * moving, or the tick budget is spent (harness.py). Every tick's outside is scripted without
 * end; the drive itself always ends.
 */
module PinnedDrive {
  import opened Common

  // ---- failures in a row ----------------------------------------------------------------------

  type ErrorClass = string

  /** How many of the last records name the same class of failure. */
  function Trailing(history: seq<Option<ErrorClass>>): nat {
    if history == [] || history[|history| - 1].None? then 0
    else
      var n := |history| - 1;
      if n > 0 && history[n - 1] == history[n] then Trailing(history[..n]) + 1 else 1
  }

  class ConvergenceDetector {
    const threshold: nat
    var consecutive: nat
    var last: Option<ErrorClass>
    ghost var history: seq<Option<ErrorClass>>

    ghost predicate Valid()
      reads this
    {
      && consecutive == Trailing(history)
      && last == (if history == [] then None else history[|history| - 1])
    }

    constructor (threshold: nat)
      ensures this.threshold == threshold && history == [] && Valid()
    {
      this.threshold := threshold;
      consecutive, last, history := 0, None, [];
    }

    method Record(error: Option<ErrorClass>)
      requires Valid()
      modifies this
      ensures Valid() && history == old(history) + [error]
    {
      if error.None? {
        consecutive, last := 0, None;
      } else if error == last {
        consecutive := consecutive + 1;
      } else {
        consecutive, last := 1, error;
      }
      assert (history + [error])[..|history|] == history;
      history := history + [error];
    }

    method ShouldHalt() returns (halt: bool)
      requires Valid()
      ensures halt <==> Trailing(history) >= threshold
    {
      halt := consecutive >= threshold;
    }
  }

  /** A halt means exactly that the last `n` records all name one class of failure. */
  lemma {:induction false} TrailingMeans(history: seq<Option<ErrorClass>>, n: nat)
    requires n > 0
    ensures Trailing(history) >= n <==>
      n <= |history| && forall i :: |history| - n <= i < |history| ==>
        history[i].Some? && history[i] == history[|history| - 1]
  {
    if history != [] && history[|history| - 1].Some? {
      var m := |history| - 1;
      if n > 1 && m > 0 {
        TrailingMeans(history[..m], n - 1);
        assert forall i :: 0 <= i < m ==> history[..m][i] == history[i];
        if history[m - 1] == history[m] {
          assert Trailing(history) >= n <==> Trailing(history[..m]) >= n - 1;
        }
      }
    }
  }

  // ---- boards ---------------------------------------------------------------------------------

  type Board = map<string, string>

  datatype Registration = Registration(keys: seq<string>, expected: seq<string>, delivery: Option<string>)

  datatype Verdict = Failed | Delivered | InProgress

  predicate HasFailure(b: Board) {
    exists k :: k in b && b[k] in {"failed", "archived", "blocked"}
  }

  predicate IsComplete(b: Board, r: Registration) {
    && r.expected != []
    && (forall k :: k in r.expected ==> k in b)
    && (r.delivery.Some? ==> r.delivery.value in b && b[r.delivery.value] == "done")
    && (forall k :: k in b ==> b[k] == "done")
  }

  function Classify(b: Board, r: Registration): Verdict {
    if HasFailure(b) then Failed else if IsComplete(b, r) then Delivered else InProgress
  }

  /** Delivered means that every execution is there and every card is done; nothing failed can be delivered. */
  lemma DeliveredMeans(b: Board, r: Registration)
    ensures Classify(b, r) == Delivered <==> IsComplete(b, r)
    ensures IsComplete(b, r) ==> !HasFailure(b)
  {
  }

  const MAX_IDENTICAL := 3

  function Budget(keys: seq<string>): nat {
    |keys| + 6
  }

  /** How many of the last boards are equal. */
  function SameBoards(boards: seq<Board>): nat {
    if boards == [] then 0
    else
      var n := |boards| - 1;
      if n > 0 && boards[n - 1] == boards[n] then SameBoards(boards[..n]) + 1 else 1
  }

  lemma {:induction false} SameBoardsMeans(boards: seq<Board>, n: nat)
    requires n > 0
    ensures SameBoards(boards) >= n <==>
      n <= |boards| && forall i :: |boards| - n <= i < |boards| ==> boards[i] == boards[|boards| - 1]
  {
    if boards != [] {
      var m := |boards| - 1;
      if n > 1 && m > 0 {
        SameBoardsMeans(boards[..m], n - 1);
        assert forall i :: 0 <= i < m ==> boards[..m][i] == boards[i];
        if boards[m - 1] == boards[m] {
          assert SameBoards(boards) >= n <==> SameBoards(boards[..m]) >= n - 1;
        }
      }
    }
  }

  // ---- the drive --------------------------------------------------------------------------------

  datatype Code = TickStalled | BudgetExhausted | ConvergenceHalt | TickError(what: string)

  /** A check or a call of one tick: it works, ends the drive with a tick error, or raises something else. */
  datatype Outcome = Fine | Refused(what: string, workers: bool) | Raises

  datatype Poll = PollTimedOut | PollCancelled | PollRaises | Settled(board: Board)

  datatype Tick = Tick(before: int, stable: Outcome, run: Outcome, registered: Outcome, registration: Registration,
                       after: int, poll: Poll, stillStable: Outcome, halts: bool)

  datatype Drive = Drive(registration: Option<Registration>, success: bool, timedOut: bool, failure: Option<Code>,
                         observed: set<string>, workersUnaccounted: bool, ticks: nat, cancelled: bool, raised: bool,
                         boards: seq<Board>)

  const START := Drive(None, false, false, None, {}, false, 0, false, false, [])

  function KeysOf(boards: seq<Board>): set<string> {
    if boards == [] then {} else KeysOf(boards[..|boards| - 1]) + boards[|boards| - 1].Keys
  }

  predicate AllInProgress(boards: seq<Board>, r: Registration) {
    forall i :: 0 <= i < |boards| ==> Classify(boards[i], r) == InProgress
  }

  /** No three boards in a row are equal. */
  predicate Moves(boards: seq<Board>) {
    forall i, j :: 0 <= i && j == i + 2 < |boards| ==> !(boards[i] == boards[i + 1] && boards[i + 1] == boards[j])
  }

  /** The drive between two ticks. */
  ghost predicate Driving(d: Drive) {
    && !d.success && !d.timedOut && !d.cancelled && !d.raised
    && d.failure in {None, Some(ConvergenceHalt)}
    && |d.boards| == d.ticks
    && d.observed == KeysOf(d.boards)
    && (d.registration.None? <==> d.ticks == 0)
    && (d.registration.Some? ==>
          d.ticks < Budget(d.registration.value.keys) && AllInProgress(d.boards, d.registration.value))
    && SameBoards(d.boards) < MAX_IDENTICAL
    && Moves(d.boards)
  }

  /** The drive after its end, and why it ended. */
  ghost predicate Honest(d: Drive) {
    && d.ticks <= (if d.registration.Some? then Budget(d.registration.value.keys) else 1)
    && d.observed == KeysOf(d.boards)
    && (d.success ==>
          && d.registration.Some? && d.boards != [] && IsComplete(d.boards[|d.boards| - 1], d.registration.value)
          && d.failure in {None, Some(ConvergenceHalt)})
    && (d.failure == Some(TickStalled) ==>
          var n := |d.boards|;
          && d.registration.Some? && n >= 3 && AllInProgress(d.boards, d.registration.value)
          && d.boards[n - 1] == d.boards[n - 2] && d.boards[n - 2] == d.boards[n - 3]
          && Moves(d.boards[..n - 1]))
    && (d.failure == Some(BudgetExhausted) ==>
          && d.registration.Some? && d.ticks == Budget(d.registration.value.keys) == |d.boards|
          && AllInProgress(d.boards, d.registration.value) && Moves(d.boards))
    && (d.failure in {None, Some(ConvergenceHalt)} && !d.success && !d.timedOut && !d.cancelled && !d.raised ==>
          && d.registration.Some? && d.boards != [] && HasFailure(d.boards[|d.boards| - 1]))
    && (d.registration.None? && d.raised ==> d.workersUnaccounted)
  }

  lemma OneMoreBoard(boards: seq<Board>, b: Board)
    requires Moves(boards) && SameBoards(boards) < MAX_IDENTICAL
    ensures SameBoards(boards + [b]) == if boards != [] && boards[|boards| - 1] == b then SameBoards(boards) + 1 else 1
    ensures SameBoards(boards + [b]) < MAX_IDENTICAL ==> Moves(boards + [b])
    ensures SameBoards(boards + [b]) >= MAX_IDENTICAL ==>
      var all := boards + [b]; var n := |all|; n >= 3 && all[n - 1] == all[n - 2] && all[n - 2] == all[n - 3]
    ensures KeysOf(boards + [b]) == KeysOf(boards) + b.Keys
  {
    var all := boards + [b];
    assert all[..|boards|] == boards;
    SameBoardsMeans(all, 3);
  }

  /** A tick has run and its board is about to be looked at. */
  ghost predicate Settling(d: Drive) {
    && d.registration.Some? && !d.success && !d.timedOut && !d.cancelled && !d.raised
    && d.failure in {None, Some(ConvergenceHalt)}
    && 1 <= d.ticks <= Budget(d.registration.value.keys) && |d.boards| == d.ticks - 1 && d.observed == KeysOf(d.boards)
    && AllInProgress(d.boards, d.registration.value)
    && SameBoards(d.boards) < MAX_IDENTICAL && Moves(d.boards)
  }

  function Looked(d: Drive, b: Board, halts: bool): Drive {
    d.(observed := d.observed + b.Keys, boards := d.boards + [b],
       failure := if halts then Some(ConvergenceHalt) else d.failure)
  }

  lemma LookedKeys(d: Drive, b: Board, halts: bool)
    requires Settling(d)
    ensures Looked(d, b, halts).observed == KeysOf(Looked(d, b, halts).boards)
  {
    OneMoreBoard(d.boards, b);
  }

  lemma EndsFailed(d: Drive, b: Board, halts: bool)
    requires Settling(d) && HasFailure(b)
    ensures Honest(Looked(d, b, halts))
  {
    LookedKeys(d, b, halts);
  }

  lemma EndsDelivered(d: Drive, b: Board, halts: bool)
    requires Settling(d) && IsComplete(b, d.registration.value)
    ensures Honest(Looked(d, b, halts).(success := true))
  {
    LookedKeys(d, b, halts);
  }

  lemma EndsStalled(d: Drive, b: Board, halts: bool)
    requires Settling(d) && Classify(b, d.registration.value) == InProgress
    requires SameBoards(d.boards + [b]) >= MAX_IDENTICAL
    ensures Honest(Looked(d, b, halts).(failure := Some(TickStalled)))
  {
    LookedKeys(d, b, halts);
    OneMoreBoard(d.boards, b);
    assert (d.boards + [b])[..|d.boards|] == d.boards;
  }

  lemma EndsExhausted(d: Drive, b: Board, halts: bool)
    requires Settling(d) && Classify(b, d.registration.value) == InProgress
    requires SameBoards(d.boards + [b]) < MAX_IDENTICAL
    requires d.ticks >= Budget(d.registration.value.keys)
    ensures Honest(Looked(d, b, halts).(failure := Some(BudgetExhausted)))
  {
    LookedKeys(d, b, halts);
    OneMoreBoard(d.boards, b);
  }

  lemma GoesOn(d: Drive, b: Board, halts: bool)
    requires Settling(d) && Classify(b, d.registration.value) == InProgress
    requires SameBoards(d.boards + [b]) < MAX_IDENTICAL
    requires d.ticks < Budget(d.registration.value.keys)
    ensures Driving(Looked(d, b, halts))
  {
    LookedKeys(d, b, halts);
    OneMoreBoard(d.boards, b);
  }

  lemma SameAfter(boards: seq<Board>, b: Board)
    ensures SameBoards(boards + [b]) == if boards != [] && boards[|boards| - 1] == b then SameBoards(boards) + 1 else 1
  {
    assert (boards + [b])[..|boards|] == boards;
  }

  /** What a settled board decides: the drive ends, or goes on to the next tick. */
  method Decide(d: Drive, b: Board, halts: bool, identical: nat) returns (n: Drive, same: nat, ended: bool)
    requires Settling(d) && identical == SameBoards(d.boards)
    ensures n.registration == d.registration && n.ticks == d.ticks && n.boards == d.boards + [b]
    ensures !ended ==> Driving(n) && same == SameBoards(n.boards)
    ensures ended ==> Honest(n)
    ensures n.success <==> Classify(b, d.registration.value) == Delivered
    ensures n.failure == Some(TickStalled) <==>
      Classify(b, d.registration.value) == InProgress && SameBoards(d.boards + [b]) >= MAX_IDENTICAL
    ensures Classify(b, d.registration.value) != InProgress ==> ended
  {
    SameAfter(d.boards, b);
    n, same := Looked(d, b, halts), identical;
    var verdict := Classify(b, d.registration.value);
    if verdict == Failed {
      EndsFailed(d, b, halts);
      return n, same, true;
    }
    if verdict == Delivered {
      EndsDelivered(d, b, halts);
      return n.(success := true), same, true;
    }
    same := if d.boards != [] && d.boards[|d.boards| - 1] == b then identical + 1 else 1;
    if same >= MAX_IDENTICAL {
      EndsStalled(d, b, halts);
      return n.(failure := Some(TickStalled)), same, true;
    }
    if d.ticks >= Budget(d.registration.value.keys) {
      EndsExhausted(d, b, halts);
      return n.(failure := Some(BudgetExhausted)), same, true;
    }
    GoesOn(d, b, halts);
    ended := false;
  }

  /** Runs one tick and its registration checks; None where the tick is through. */
  method RunTick(d: Drive, t: Tick) returns (n: Drive, ended: bool)
    requires Driving(d)
    ensures n.ticks <= d.ticks + 1 && n.boards == d.boards && n.observed == d.observed
    ensures ended ==> Honest(n)
    ensures !ended ==>
      Settling(n) && n.ticks == d.ticks + 1 && (d.registration.Some? ==> n.registration == d.registration)
  {
    n := d;
    if t.before <= 0 {
      return n.(timedOut := true), true;
    }
    if d.registration.Some? && t.stable != Fine {
      n := Stopped(n, t.stable);
      return n, true;
    }
    n := n.(ticks := d.ticks + 1);
    if t.run != Fine {
      n := Stopped(n, t.run);
      return n, true;
    }
    if t.registered != Fine {
      n := Stopped(n, t.registered);
      return n, true;
    }
    if d.registration.None? {
      n := n.(registration := Some(t.registration));
    }
    ended := false;
  }

  lemma EndsInterrupted(d: Drive, n: Drive)
    requires Settling(d)
    requires n in {d.(timedOut := true), d.(cancelled := true, raised := true), d.(raised := true)}
    ensures Honest(n)
  {
  }

  lemma EndsStopped(d: Drive, b: Board, o: Outcome)
    requires Settling(d) && o != Fine
    ensures Honest(Stopped(Looked(d, b, false), o))
  {
    LookedKeys(d, b, false);
  }

  function Stopped(d: Drive, o: Outcome): Drive
    requires o != Fine
  {
    match o
    case Refused(what, workers) =>
      d.(failure := Some(TickError(what)), workersUnaccounted := d.workersUnaccounted || workers)
    case Raises => d.(raised := true, workersUnaccounted := d.workersUnaccounted || d.registration.None?)
  }

  /**
   * Drives a run to its end. It always ends, within the budget, and says honestly why; a
   * delivered board is the only success, and a board that did not move for three ticks, or a
   * failed card, is never taken for one.
   */
  method DrivePinnedTicks(script: nat -> Tick) returns (d: Drive)
    ensures Honest(d)
  {
    d := START;
    var identical := 0;
    while true
      invariant Driving(d) && identical == SameBoards(d.boards)
      decreases if d.registration.None? then 1 else 0,
                if d.registration.Some? then Budget(d.registration.value.keys) - d.ticks else 0
    {
      var t := script(d.ticks);
      var ran, ended := RunTick(d, t);
      if ended {
        return ran;
      }
      if t.after <= 0 {
        EndsInterrupted(ran, ran.(timedOut := true));
        return ran.(timedOut := true);
      }
      match t.poll {
        case PollTimedOut =>
          EndsInterrupted(ran, ran.(timedOut := true));
          return ran.(timedOut := true);
        case PollCancelled =>
          EndsInterrupted(ran, ran.(cancelled := true, raised := true));
          return ran.(cancelled := true, raised := true);
        case PollRaises =>
          EndsInterrupted(ran, ran.(raised := true));
          return ran.(raised := true);
        case Settled(board) =>
          if t.stillStable != Fine {
            EndsStopped(ran, board, t.stillStable);
            return Stopped(Looked(ran, board, false), t.stillStable);
          }
          d, identical, ended := Decide(ran, board, t.halts, identical);
          if ended {
            return;
          }
      }
    }
  }
}
