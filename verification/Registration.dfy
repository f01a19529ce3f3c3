/**
 * Durable registration of one tick's card chain on an unreliable remote board.
 *
 * A barrier card holds back a chain of phase cards. One local marker file moves
 * through Create, Cleanup and Commit; a reconciler replays it after a crash.
 * Every step is one atomic marker write, one remote command (which may take
 * effect and still be reported lost), one snapshot, or a crash. A create whose
 * answer was lost, or whose caller was killed, may still land at any later time.
 */
module Registration {
  import opened Common

  type CardId = nat

  datatype CardStatus = Todo | Ready | Running | Blocked | Failed | Done | Archived

  /** Key 0 is the barrier, key k the k-th phase; the parent is fixed at creation. */
  datatype Card = Card(key: nat, parent: Option<CardId>, status: CardStatus)

  type Board = map<CardId, Card>

  /** The durable marker; identifiers of a cleanup are listed child first. */
  datatype Marker =
    | Create(key: nat, known: seq<CardId>)
    | Cleanup(ids: seq<CardId>)
    | Commit(barrier: CardId, ids: seq<CardId>)

  /** Program points of the one local process; `known` and `made` list cards in creation order. */
  datatype Point =
    | Idle
    | Starting(known: seq<CardId>)
    | Calling(known: seq<CardId>)
    | Unsure(known: seq<CardId>)
    | Named(known: seq<CardId>, id: CardId)
    | AllMade(made: seq<CardId>)
    | Recorded(made: seq<CardId>)
    | Committing(ids: seq<CardId>)
    | Committed
    | Cleaning(ids: seq<CardId>)
    | Archiving(ids: seq<CardId>, confirmed: nat)

  datatype State = State(
    phases: nat,
    board: Board,
    marker: Option<Marker>,
    sentinel: bool,            // the expected phases were durably recorded
    committed: bool,           // a commit marker was durable at some time
    chain: seq<CardId>,        // the full chain, child first, once it was recorded
    inFlight: Option<seq<CardId>>,  // the cards known to a create nobody waits for any more
    point: Point)

  function Initial(phases: nat): State {
    State(phases, map[], None, false, false, [], None, Idle)
  }

  predicate Live(board: Board, id: CardId) {
    id in board && board[id].status != Archived
  }

  function Reverse(s: seq<CardId>): (r: seq<CardId>)
    ensures |r| == |s| && forall i :: 0 <= i < |s| ==> r[i] == s[|s| - 1 - i]
  {
    if s == [] then [] else Reverse(s[1..]) + [s[0]]
  }

  // ----- the remote board -----

  function ParentOf(known: seq<CardId>): Option<CardId> {
    if known == [] then None else Some(known[|known| - 1])
  }

  /** An idempotent create: it answers with the live card of the key, or makes a new one. */
  predicate CanCreate(board: Board, key: nat, id: CardId) {
    if id in board then board[id].key == key && board[id].status != Archived
    else forall other :: other in board && board[other].key == key ==> board[other].status == Archived
  }

  function AfterCreate(board: Board, known: seq<CardId>, id: CardId): Board {
    if id in board then board else board[id := Card(|known|, ParentOf(known), Todo)]
  }

  /** A create that may or may not have reached the board. */
  predicate MayLand(board: Board, key: nat, landed: Option<CardId>) {
    landed.Some? ==> CanCreate(board, key, landed.value)
  }

  function AfterMaybe(board: Board, known: seq<CardId>, landed: Option<CardId>): Board {
    if landed.None? then board else AfterCreate(board, known, landed.value)
  }

  function SetStatus(board: Board, id: CardId, status: CardStatus): Board
    requires id in board
  {
    board[id := board[id].(status := status)]
  }

  // ----- steps -----

  datatype Step =
    | Begin
    | PersistCreate(ok: bool)
    | CreateReturned(id: CardId)
    | CreateRefused(cleared: bool)
    | CreateLost(landed: Option<CardId>, cancelled: bool)
    | Resolve(found: Option<CardId>)
    | LandLate(id: CardId)
    | NeverLand
    | RecordCreated(ok: bool)
    | Cancel(leave: bool)
    | WriteSentinel(ok: bool)
    | PersistCommit(ok: bool)
    | CompleteBarrier(effect: bool, ok: bool)
    | ClearCommitted(ok: bool)
    | PersistCleanup(ok: bool)
    | ArchiveOne(effect: bool, seen: bool)
    | ClearCleanup(ok: bool)
    | Reconcile(cleanupOnly: bool, readable: bool, found: Option<CardId>)
    | Work(id: CardId, status: CardStatus)
    | Crash

  /** The card a snapshot resolves from the tick and phase key: a live one, never an archived one. */
  predicate Finds(board: Board, key: nat, found: Option<CardId>) {
    found.Some? ==> Live(board, found.value) && board[found.value].key == key
  }

  predicate NoLiveCard(board: Board, key: nat) {
    forall id :: id in board && board[id].status != Archived ==> board[id].key != key
  }

  /** What a listing shows of the key: nothing when it cannot be read, else a live card wherever there is one. */
  predicate Shows(board: Board, key: nat, readable: bool, found: Option<CardId>) {
    if readable then Finds(board, key, found) && (found.None? ==> NoLiveCard(board, key)) else found.None?
  }

  function Next(s: State, step: Step): Option<State> {
    match step
    case Begin =>
      if s.point == Idle && s.marker.None? && s.board == map[] then Some(s.(point := Starting([]))) else None
    case PersistCreate(ok) =>
      if !s.point.Starting? then None
      else
        var known := s.point.known;
        if ok then Some(s.(marker := Some(Create(|known|, known)), point := Calling(known)))
        else Some(s.(point := if known == [] then Idle else Cleaning(Reverse(known))))
    case CreateReturned(id) =>
      if !s.point.Calling? || !CanCreate(s.board, |s.point.known|, id) then None
      else Some(s.(board := AfterCreate(s.board, s.point.known, id), point := Named(s.point.known, id)))
    case CreateRefused(cleared) =>
      if !s.point.Calling? then None
      else if s.point.known != [] then Some(s.(point := Cleaning(Reverse(s.point.known))))
      else Some(s.(marker := if cleared then None else s.marker, point := Idle))
    case CreateLost(landed, cancelled) =>
      if !s.point.Calling? || !MayLand(s.board, |s.point.known|, landed) then None
      else Some(s.(board := AfterMaybe(s.board, s.point.known, landed),
                   inFlight := if landed.None? then Some(s.point.known) else None,
                   point := if cancelled then Idle else Unsure(s.point.known)))
    case Resolve(found) =>
      if !s.point.Unsure? || !Finds(s.board, |s.point.known|, found) then None
      else Some(s.(point := if found.None? then Idle else Cleaning([found.value] + Reverse(s.point.known))))
    case LandLate(id) =>
      if s.inFlight.None? || !CanCreate(s.board, |s.inFlight.value|, id) then None
      else Some(s.(board := AfterCreate(s.board, s.inFlight.value, id), inFlight := None))
    case NeverLand => Some(s.(inFlight := None))
    case RecordCreated(ok) =>
      if !s.point.Named? then None
      else if !ok then Some(s.(point := Idle))
      else
        var known := s.point.known + [s.point.id];
        Some(s.(marker := Some(Cleanup([s.point.id] + Reverse(s.point.known))),
                point := if |known| == s.phases + 1 then AllMade(known) else Starting(known)))
    case Cancel(leave) =>
      if s.point.Starting? then
        Some(s.(point := if leave || s.point.known == [] then Idle else Cleaning(Reverse(s.point.known))))
      else if s.point.Named? then Some(s.(point := Cleaning([s.point.id] + Reverse(s.point.known))))
      else if s.point.AllMade? then Some(s.(point := Cleaning(Reverse(s.point.made))))
      else if s.point.Committing? then Some(s.(point := Cleaning(s.point.ids)))
      else None
    case WriteSentinel(ok) =>
      if !s.point.AllMade? then None
      else if !ok then Some(s.(point := Cleaning(Reverse(s.point.made))))
      else Some(s.(sentinel := true, chain := Reverse(s.point.made), point := Recorded(s.point.made)))
    case PersistCommit(ok) =>
      if !s.point.Recorded? || s.point.made == [] then None
      else if !ok then Some(s.(point := Cleaning(Reverse(s.point.made))))
      else
        var ids := Reverse(s.point.made);
        Some(s.(marker := Some(Commit(s.point.made[0], ids)), committed := true, point := Committing(ids)))
    case CompleteBarrier(effect, ok) =>
      if !s.point.Committing? || s.point.ids == [] || !Live(s.board, s.point.ids[|s.point.ids| - 1])
         || (ok && !effect) then None
      else Some(s.(board := if effect then SetStatus(s.board, s.point.ids[|s.point.ids| - 1], Done) else s.board,
                   point := if ok then Committed else Idle))
    case ClearCommitted(ok) =>
      if !s.point.Committed? then None
      else Some(s.(marker := if ok then None else s.marker, point := Idle))
    case PersistCleanup(ok) =>
      if !s.point.Cleaning? then None
      else if ok then Some(s.(marker := Some(Cleanup(s.point.ids)), point := Archiving(s.point.ids, 0)))
      else Some(s.(point := Idle))
    case ArchiveOne(effect, seen) =>
      if !s.point.Archiving? || s.point.confirmed >= |s.point.ids| then None
      else
        var id := s.point.ids[s.point.confirmed];
        var board := if effect && id in s.board then SetStatus(s.board, id, Archived) else s.board;
        if seen && !(id in board && board[id].status == Archived) then None
        else Some(s.(board := board, point := if seen then Archiving(s.point.ids, s.point.confirmed + 1) else Idle))
    case ClearCleanup(ok) =>
      if !s.point.Archiving? || s.point.confirmed != |s.point.ids| then None
      else Some(s.(marker := if ok && s.marker == Some(Cleanup(s.point.ids)) then None else s.marker, point := Idle))
    case Reconcile(cleanupOnly, readable, found) =>
      if s.point != Idle || s.marker.None? then None
      else (
        match s.marker.value
        case Commit(barrier, ids) =>
          if cleanupOnly then Some(s.(point := Cleaning(ids)))
          else if !readable || barrier !in s.board then Some(s)
          else (
            match s.board[barrier].status
            case Done => Some(s.(point := Committed))
            case Ready => Some(s.(point := Committing(ids)))
            case Todo => Some(s.(point := Committing(ids)))
            case Failed => Some(s.(point := Cleaning(ids)))
            case Archived => Some(s.(point := Cleaning(ids)))
            case _ => Some(s))
        case Cleanup(ids) => Some(s.(point := Archiving(ids, 0)))
        case Create(key, known) =>
          if !Shows(s.board, key, readable, found) then None
          else if found.None? then Some(s)
          else Some(s.(point := Cleaning([found.value] + Reverse(known)))))
    case Work(id, status) =>
      // A worker moves a card only when its parent is done; the barrier has no worker and can only fail.
      if !Live(s.board, id) || status == Archived then None
      else if s.board[id].parent.None? then
        if s.board[id].status in {Todo, Ready} && status in {Ready, Failed}
          then Some(s.(board := SetStatus(s.board, id, status))) else None
      else
        var parent := s.board[id].parent.value;
        if parent in s.board && s.board[parent].status == Done then Some(s.(board := SetStatus(s.board, id, status)))
        else None
    case Crash =>
      Some(s.(point := Idle, inFlight := if s.point.Calling? then Some(s.point.known) else s.inFlight))
  }

  /** Reconciliation reports success exactly when its last step removed the marker, or none was there. */
  predicate ReconcileSucceeded(s: State) {
    s.point == Idle && s.marker.None?
  }

  // ----- the invariant -----

  /** Cards hang below the card made just before them; the barrier alone has no parent. */
  ghost predicate Structured(board: Board) {
    && (forall id :: id in board ==> (board[id].parent.None? <==> board[id].key == 0))
    && (forall id, parent :: id in board && board[id].parent == Some(parent) ==>
          parent in board && board[parent].key + 1 == board[id].key)
  }

  /** No live card has an archived parent, so no live card has an archived ancestor. */
  ghost predicate NoLiveBelowArchived(board: Board) {
    forall id, parent :: Live(board, id) && board[id].parent == Some(parent) ==> Live(board, parent)
  }

  ghost predicate OneLivePerKey(board: Board) {
    forall a, b :: Live(board, a) && Live(board, b) && board[a].key == board[b].key ==> a == b
  }

  /** `ids` is a chain of the board from its last card down to the barrier. */
  ghost predicate ChildFirst(board: Board, ids: seq<CardId>) {
    && (forall j :: 0 <= j < |ids| ==> ids[j] in board && board[ids[j]].key == |ids| - 1 - j)
    && (forall i, j :: 0 <= i < j < |ids| && j == i + 1 ==> board[ids[i]].parent == Some(ids[j]))
  }

  ghost predicate AllLive(board: Board, ids: seq<CardId>) {
    forall j :: 0 <= j < |ids| ==> Live(board, ids[j])
  }

  ghost predicate Covers(board: Board, ids: seq<CardId>) {
    forall id :: Live(board, id) ==> id in ids
  }

  ghost predicate BarrierDone(board: Board) {
    exists id :: id in board && board[id].key == 0 && board[id].status == Done
  }

  ghost predicate FullChain(s: State) {
    && |s.chain| == s.phases + 1
    && ChildFirst(s.board, s.chain)
  }

  /** The chain is whole and its registration was committed durably. */
  ghost predicate Registered(s: State) {
    FullChain(s) && s.sentinel && s.committed
  }

  /** What a board always is, apart from the state of the registration. */
  ghost predicate Sane(board: Board) {
    Structured(board) && OneLivePerKey(board) && NoLiveBelowArchived(board)
  }

  /** No card of the tick was ever archived. */
  ghost predicate Untouched(board: Board) {
    forall id :: id in board ==> Live(board, id)
  }

  /** The cards made so far, and possibly the next one, none of them archived yet. */
  ghost predicate Growing(board: Board, known: seq<CardId>) {
    && ChildFirst(board, Reverse(known))
    && !BarrierDone(board)
    && Untouched(board)
    && (forall id :: id in board ==> id in known || (board[id].key == |known| && board[id].parent == ParentOf(known)))
  }

  ghost predicate MarkerFits(s: State) {
    match s.marker
    case None =>
      || (forall id :: id in s.board ==> !Live(s.board, id))
      || (&& Registered(s) && AllLive(s.board, s.chain) && Covers(s.board, s.chain)
          && s.board[s.chain[|s.chain| - 1]].status == Done)
    case Some(Create(key, known)) =>
      && key == |known| <= s.phases && Growing(s.board, known)
    case Some(Cleanup(ids)) =>
      && |ids| <= s.phases + 1 && ids != [] && ChildFirst(s.board, ids) && Covers(s.board, ids)
    case Some(Commit(barrier, ids)) =>
      && ids == s.chain && Registered(s) && barrier == ids[|ids| - 1] && AllLive(s.board, ids) && Covers(s.board, ids)
  }

  /** The cards made so far are all there, untouched, and listed by a durable cleanup. */
  ghost predicate Held(s: State, made: seq<CardId>) {
    && s.marker == Some(Cleanup(Reverse(made)))
    && !BarrierDone(s.board)
    && Untouched(s.board)
    && (forall id :: id in s.board ==> id in made)
  }

  ghost predicate PointFits(s: State) {
    match s.point
    case Idle => true
    case Starting(known) =>
      |known| <= s.phases && if known == [] then s.board == map[] && s.marker.None? else Held(s, known)
    case Calling(known) => s.marker == Some(Create(|known|, known)) && (forall id :: id in s.board ==> id in known)
    case Unsure(known) => s.marker == Some(Create(|known|, known))
    case Named(known, id) => s.marker == Some(Create(|known|, known)) && Live(s.board, id) && s.board[id].key == |known|
    case AllMade(made) => |made| == s.phases + 1 && Held(s, made)
    case Recorded(made) => |made| == s.phases + 1 && Held(s, made) && s.sentinel && s.chain == Reverse(made)
    case Committing(ids) => ids != [] && ids == s.chain && s.marker == Some(Commit(ids[|ids| - 1], ids))
    case Committed =>
      && s.marker.Some? && s.marker.value.Commit?
      && s.marker.value.barrier in s.board && s.board[s.marker.value.barrier].status == Done
    case Cleaning(ids) => ids != [] && |ids| <= s.phases + 1 && ChildFirst(s.board, ids) && Covers(s.board, ids)
    case Archiving(ids, confirmed) =>
      && s.marker == Some(Cleanup(ids)) && confirmed <= |ids|
      && (forall j :: 0 <= j < confirmed ==> !Live(s.board, ids[j]))
  }

  ghost predicate BoardFits(s: State) {
    && Sane(s.board)
    && (BarrierDone(s.board) ==> Registered(s))
    && (s.chain != [] ==> FullChain(s))
  }

  /** A create in flight is the one the marker names, and its card is not there yet. */
  ghost predicate FlightFits(s: State) {
    s.inFlight.Some? ==>
      var known := s.inFlight.value;
      && (s.point == Idle || s.point == Unsure(known))
      && s.marker == Some(Create(|known|, known)) && forall id :: id in s.board ==> id in known
  }

  ghost predicate Inv(s: State) {
    BoardFits(s) && MarkerFits(s) && PointFits(s) && FlightFits(s)
  }

  // ----- board facts -----

  lemma {:induction false} ReverseMembers(s: seq<CardId>)
    ensures forall id :: id in Reverse(s) <==> id in s
  {
    forall id | id in s
      ensures id in Reverse(s)
    {
      var i :| 0 <= i < |s| && s[i] == id;
      assert Reverse(s)[|s| - 1 - i] == id;
    }
  }

  lemma ReverseSnoc(s: seq<CardId>, id: CardId)
    ensures Reverse(s + [id]) == [id] + Reverse(s)
  {
  }

  /** The newest card made, if any, is live and is the parent of the next. */
  lemma NewestIsParent(board: Board, known: seq<CardId>)
    requires Growing(board, known)
    ensures known == [] ==> ParentOf(known) == None
    ensures known != [] ==> ParentOf(known) == Some(Reverse(known)[0])
    ensures known != [] ==> Live(board, Reverse(known)[0]) && board[Reverse(known)[0]].key == |known| - 1
  {
    if known != [] { assert Reverse(known)[0] == known[|known| - 1]; }
  }

  /** A new card leaves every card already there as it was. */
  lemma NewCardIsSane(board: Board, id: CardId, card: Card)
    requires Sane(board) && id !in board && card.status == Todo
    requires forall other :: other in board && board[other].key == card.key ==> board[other].status == Archived
    requires card.parent.None? <==> card.key == 0
    requires card.parent.Some? ==> Live(board, card.parent.value) && board[card.parent.value].key + 1 == card.key
    ensures Sane(board[id := card])
  {
    var after := board[id := card];
    assert forall x :: x in board ==> after[x] == board[x];
    assert Structured(after);
    assert OneLivePerKey(after) by {
      forall a, b | Live(after, a) && Live(after, b) && after[a].key == after[b].key
        ensures a == b
      {
        if a != id && b != id { assert Live(board, a) && Live(board, b); }
      }
    }
    assert NoLiveBelowArchived(after) by {
      forall x, parent | Live(after, x) && after[x].parent == Some(parent)
        ensures Live(after, parent)
      {
        if x != id { assert Live(board, x) && Live(board, parent); }
      }
    }
  }

  lemma NewCardKeepsChains(board: Board, id: CardId, card: Card, ids: seq<CardId>)
    requires id !in board && card.status == Todo && ChildFirst(board, ids)
    ensures ChildFirst(board[id := card], ids)
    ensures BarrierDone(board[id := card]) ==> BarrierDone(board)
    ensures Untouched(board) ==> Untouched(board[id := card])
  {
    var after := board[id := card];
    assert forall x :: x in board ==> after[x] == board[x];
    if BarrierDone(after) {
      var x :| x in after && after[x].key == 0 && after[x].status == Done;
      assert x in board && board[x] == after[x];
    }
  }

  /** Creating, or re-creating idempotently, adds at most the next card of the chain. */
  lemma CreateGrows(board: Board, known: seq<CardId>, id: CardId)
    requires Sane(board) && Growing(board, known) && CanCreate(board, |known|, id)
    ensures var after := AfterCreate(board, known, id);
      Sane(after) && Growing(after, known) && Live(after, id) && after[id].key == |known|
  {
    if id !in board {
      NewestIsParent(board, known);
      NewCardIsSane(board, id, Card(|known|, ParentOf(known), Todo));
      NewCardKeepsChains(board, id, Card(|known|, ParentOf(known), Todo), Reverse(known));
    }
  }

  /** The chain of the cards made, once the newest is known by name. */
  lemma NamedChain(board: Board, known: seq<CardId>, id: CardId)
    requires Sane(board) && Growing(board, known) && Live(board, id) && board[id].key == |known|
    ensures ChildFirst(board, [id] + Reverse(known)) && AllLive(board, [id] + Reverse(known))
    ensures Covers(board, [id] + Reverse(known))
    ensures forall other :: other in board ==> other in known + [id]
  {
    NextIsNew(board, known, id);
    NewestIsParent(board, known);
    PrependChain(board, id, Reverse(known));
    forall other | other in board
      ensures other in known + [id] && other in [id] + Reverse(known)
    {
      ReverseMembers(known);
      if other !in known { NextIsUnique(board, known, id, other); }
    }
  }

  lemma NextIsNew(board: Board, known: seq<CardId>, id: CardId)
    requires Growing(board, known) && id in board && board[id].key == |known|
    ensures id !in known && board[id].parent == ParentOf(known)
  {
    ReverseMembers(known);
    forall j | 0 <= j < |known|
      ensures Reverse(known)[j] != id
    {
      assert board[Reverse(known)[j]].key == |known| - 1 - j;
    }
  }

  lemma NextIsUnique(board: Board, known: seq<CardId>, id: CardId, other: CardId)
    requires Sane(board) && Growing(board, known) && Live(board, id) && board[id].key == |known|
    requires other in board && other !in known
    ensures other == id
  {
  }

  lemma PrependChain(board: Board, id: CardId, ids: seq<CardId>)
    requires ChildFirst(board, ids) && AllLive(board, ids) && Live(board, id) && board[id].key == |ids|
    requires ids != [] ==> board[id].parent == Some(ids[0])
    ensures ChildFirst(board, [id] + ids) && AllLive(board, [id] + ids)
  {
    var longer := [id] + ids;
    assert forall j :: 0 < j < |longer| ==> longer[j] == ids[j - 1];
  }

  /** A status change moves no card. */
  lemma StatusKeepsShape(board: Board, id: CardId, status: CardStatus)
    requires id in board
    ensures Structured(board) ==> Structured(SetStatus(board, id, status))
    ensures forall ids :: ChildFirst(board, ids) ==> ChildFirst(SetStatus(board, id, status), ids)
    ensures forall other :: other in board <==> other in SetStatus(board, id, status)
  {
    var after := SetStatus(board, id, status);
    assert forall other :: other in board ==>
      after[other].key == board[other].key && after[other].parent == board[other].parent;
  }

  lemma LiveStatusKeepsLife(board: Board, id: CardId, status: CardStatus)
    requires Live(board, id) && status != Archived && Sane(board)
    ensures var after := SetStatus(board, id, status);
      && Sane(after)
      && (forall other :: Live(after, other) <==> Live(board, other))
      && (BarrierDone(after) ==> BarrierDone(board) || (status == Done && board[id].key == 0))
  {
    StatusKeepsShape(board, id, status);
    var after := SetStatus(board, id, status);
    SameLife(board, after);
    assert forall other :: other in board && other != id ==> after[other] == board[other];
    if BarrierDone(after) {
      var x :| x in after && after[x].key == 0 && after[x].status == Done;
      assert x == id || board[x] == after[x];
    }
  }

  lemma SameLife(board: Board, after: Board)
    requires Sane(board) && Structured(after)
    requires forall other :: other in board <==> other in after
    requires forall other :: other in board ==>
      after[other].key == board[other].key && after[other].parent == board[other].parent
    requires forall other :: Live(after, other) <==> Live(board, other)
    ensures Sane(after)
  {
  }

  /** Archiving the first unarchived card of a covering chain leaves no live card below it. */
  lemma ArchiveKeepsOrder(board: Board, ids: seq<CardId>, i: nat)
    requires Sane(board) && ChildFirst(board, ids) && Covers(board, ids) && i < |ids|
    requires forall j :: 0 <= j < i ==> !Live(board, ids[j])
    ensures var after := SetStatus(board, ids[i], Archived);
      && Sane(after) && ChildFirst(after, ids) && Covers(after, ids)
      && (BarrierDone(after) ==> BarrierDone(board))
      && (forall other :: Live(after, other) ==> Live(board, other))
  {
    var after := SetStatus(board, ids[i], Archived);
    StatusKeepsShape(board, ids[i], Archived);
    assert forall other :: other in board && other != ids[i] ==> after[other] == board[other];
    assert forall other :: Live(after, other) ==> Live(board, other) && other != ids[i];
    forall id, parent | Live(after, id) && after[id].parent == Some(parent)
      ensures Live(after, parent)
    {
      assert Live(board, id) && id in ids && Live(board, parent);
      var j :| 0 <= j < |ids| && ids[j] == id;
      assert board[ids[j]].key == |ids| - 1 - j;
      assert board[parent].key + 1 == board[id].key;
    }
  }

  /** A step that leaves the board alone and records the registration no less keeps the board's facts. */
  lemma SameBoardFits(s: State, t: State)
    requires BoardFits(s) && t.board == s.board && t.chain == s.chain && t.phases == s.phases
    requires (s.sentinel ==> t.sentinel) && (s.committed ==> t.committed)
    ensures BoardFits(t)
  {
  }

  lemma MovedFits(s: State, point: Point)
    requires BoardFits(s) && MarkerFits(s) && PointFits(s.(point := point)) && s.inFlight.None?
    ensures Inv(s.(point := point))
  {
  }

  lemma RecordedFits(s: State, known: seq<CardId>, id: CardId, t: State)
    requires BoardFits(s) && Growing(s.board, known) && |known| <= s.phases
    requires Live(s.board, id) && s.board[id].key == |known|
    requires t == s.(marker := Some(Cleanup([id] + Reverse(known))),
                     point := if |known| == s.phases then AllMade(known + [id]) else Starting(known + [id]))
    ensures MarkerFits(t) && PointFits(t)
  {
    NamedChain(s.board, known, id);
    ReverseSnoc(known, id);
  }

  lemma ArchivedFits(s: State, ids: seq<CardId>, i: nat, t: State)
    requires BoardFits(s) && i < |ids| <= s.phases + 1 && ChildFirst(s.board, ids) && Covers(s.board, ids)
    requires s.marker == Some(Cleanup(ids)) && s.inFlight.None? && forall j :: 0 <= j < i ==> !Live(s.board, ids[j])
    requires t == s.(board := SetStatus(s.board, ids[i], Archived), point := t.point)
    requires t.point == Idle || t.point == Archiving(ids, i + 1)
    ensures Inv(t)
  {
    ArchiveKeepsOrder(s.board, ids, i);
    StatusKeepsShape(s.board, ids[i], Archived);
  }

  lemma DoneFits(s: State, t: State)
    requires Inv(s) && s.point.Committing?
    requires t == s.(board := SetStatus(s.board, s.point.ids[|s.point.ids| - 1], Done), point := t.point)
    requires t.point == Idle || t.point == Committed
    ensures Inv(t)
  {
    var barrier := s.point.ids[|s.point.ids| - 1];
    assert Live(s.board, barrier);
    LiveStatusKeepsLife(s.board, barrier, Done);
    StatusKeepsShape(s.board, barrier, Done);
    assert ChildFirst(t.board, t.chain);
    assert forall id :: Live(t.board, id) <==> Live(s.board, id);
  }

  lemma KeepsBegin(s: State, step: Step)
    requires Inv(s) && step.Begin? && Next(s, step).Some?
    ensures Inv(Next(s, step).value)
  {
  }

  lemma KeepsPersistCreate(s: State, step: Step)
    requires Inv(s) && step.PersistCreate? && Next(s, step).Some?
    ensures Inv(Next(s, step).value)
  {
  }

  /** The card of the marker's key arrives on the board. */
  lemma LandingFits(s: State, known: seq<CardId>, id: CardId, t: State)
    requires BoardFits(s) && MarkerFits(s) && s.marker == Some(Create(|known|, known))
    requires CanCreate(s.board, |known|, id)
    requires t == s.(board := AfterCreate(s.board, known, id), point := t.point, inFlight := None)
    ensures BoardFits(t) && MarkerFits(t) && Live(t.board, id) && t.board[id].key == |known|
  {
    CreateGrows(s.board, known, id);
    if s.chain != [] && id !in s.board {
      NewCardKeepsChains(s.board, id, Card(|known|, ParentOf(known), Todo), s.chain);
    }
  }

  lemma KeepsCreateReturned(s: State, step: Step)
    requires Inv(s) && step.CreateReturned? && Next(s, step).Some?
    ensures Inv(Next(s, step).value)
  {
    LandingFits(s, s.point.known, step.id, Next(s, step).value);
  }

  lemma KeepsCreateRefused(s: State, step: Step)
    requires Inv(s) && step.CreateRefused? && Next(s, step).Some?
    ensures Inv(Next(s, step).value)
  {
    SameBoardFits(s, Next(s, step).value);
    ReverseMembers(s.point.known);
  }

  lemma KeepsCreateLost(s: State, step: Step)
    requires Inv(s) && step.CreateLost? && Next(s, step).Some?
    ensures Inv(Next(s, step).value)
  {
    if step.landed.Some? {
      LandingFits(s, s.point.known, step.landed.value, Next(s, step).value);
    } else {
      SameBoardFits(s, Next(s, step).value);
    }
  }

  lemma KeepsResolve(s: State, step: Step)
    requires Inv(s) && step.Resolve? && Next(s, step).Some?
    ensures Inv(Next(s, step).value)
  {
    if step.found.Some? {
      NamedChain(s.board, s.point.known, step.found.value);
      FlightHasNoCard(s, step.found.value);
    }
  }

  /** While a create is in flight no card of its key is on the board. */
  lemma FlightHasNoCard(s: State, id: CardId)
    requires Inv(s) && s.marker.Some? && s.marker.value.Create?
    requires id in s.board && s.board[id].key == s.marker.value.key
    ensures s.inFlight.None?
  {
    if s.inFlight.Some? {
      NextIsNew(s.board, s.marker.value.known, id);
    }
  }

  lemma KeepsLandLate(s: State, step: Step)
    requires Inv(s) && step.LandLate? && Next(s, step).Some?
    ensures Inv(Next(s, step).value)
  {
    LandingFits(s, s.inFlight.value, step.id, Next(s, step).value);
  }

  lemma KeepsRecordCreated(s: State, step: Step)
    requires Inv(s) && step.RecordCreated? && Next(s, step).Some?
    ensures Inv(Next(s, step).value)
  {
    if step.ok {
      SameBoardFits(s, Next(s, step).value);
      RecordedFits(s, s.point.known, s.point.id, Next(s, step).value);
    }
  }

  lemma KeepsCancel(s: State, step: Step)
    requires Inv(s) && step.Cancel? && Next(s, step).Some?
    ensures Inv(Next(s, step).value)
  {
    CancelledFits(s, Next(s, step).value.point);
    MovedFits(s, Next(s, step).value.point);
  }

  lemma CancelledFits(s: State, point: Point)
    requires Inv(s) && Next(s, Cancel(false)).Some?
    requires point == Idle || Some(s.(point := point)) == Next(s, Cancel(false))
    ensures PointFits(s.(point := point))
  {
    if s.point.Named? { NamedChain(s.board, s.point.known, s.point.id); }
    else if s.point.Starting? { ReverseMembers(s.point.known); }
    else if s.point.AllMade? { ReverseMembers(s.point.made); }
  }

  lemma KeepsWriteSentinel(s: State, step: Step)
    requires Inv(s) && step.WriteSentinel? && Next(s, step).Some?
    ensures Inv(Next(s, step).value)
  {
    ReverseMembers(s.point.made);
  }

  lemma KeepsPersistCommit(s: State, step: Step)
    requires Inv(s) && step.PersistCommit? && Next(s, step).Some?
    ensures Inv(Next(s, step).value)
  {
    ReverseMembers(s.point.made);
  }

  lemma KeepsCompleteBarrier(s: State, step: Step)
    requires Inv(s) && step.CompleteBarrier? && Next(s, step).Some?
    ensures Inv(Next(s, step).value)
  {
    if step.effect { DoneFits(s, Next(s, step).value); }
  }

  lemma KeepsClearCommitted(s: State, step: Step)
    requires Inv(s) && step.ClearCommitted? && Next(s, step).Some?
    ensures Inv(Next(s, step).value)
  {
  }

  lemma KeepsPersistCleanup(s: State, step: Step)
    requires Inv(s) && step.PersistCleanup? && Next(s, step).Some?
    ensures Inv(Next(s, step).value)
  {
    SameBoardFits(s, Next(s, step).value);
  }

  lemma KeepsArchiveOne(s: State, step: Step)
    requires Inv(s) && step.ArchiveOne? && Next(s, step).Some?
    ensures Inv(Next(s, step).value)
  {
    if step.effect { ArchivedFits(s, s.point.ids, s.point.confirmed, Next(s, step).value); }
  }

  lemma KeepsClearCleanup(s: State, step: Step)
    requires Inv(s) && step.ClearCleanup? && Next(s, step).Some?
    ensures Inv(Next(s, step).value)
  {
    SameBoardFits(s, Next(s, step).value);
    assert forall id :: id in s.point.ids ==> !Live(s.board, id);
  }

  lemma KeepsReconcileCommit(s: State, step: Step)
    requires Inv(s) && step.Reconcile? && Next(s, step).Some? && s.marker.value.Commit?
    ensures Inv(Next(s, step).value)
  {
    MovedFits(s, Next(s, step).value.point);
  }

  lemma KeepsReconcileCleanup(s: State, step: Step)
    requires Inv(s) && step.Reconcile? && Next(s, step).Some? && s.marker.value.Cleanup?
    ensures Inv(Next(s, step).value)
  {
  }

  lemma KeepsReconcileCreate(s: State, step: Step)
    requires Inv(s) && step.Reconcile? && Next(s, step).Some? && s.marker.value.Create?
    ensures Inv(Next(s, step).value)
  {
    if step.found.Some? {
      NamedChain(s.board, s.marker.value.known, step.found.value);
      FlightHasNoCard(s, step.found.value);
    }
  }

  lemma KeepsReconcile(s: State, step: Step)
    requires Inv(s) && step.Reconcile? && Next(s, step).Some?
    ensures Inv(Next(s, step).value)
  {
    match s.marker.value {
      case Commit(_, _) => KeepsReconcileCommit(s, step);
      case Cleanup(_) => KeepsReconcileCleanup(s, step);
      case Create(_, _) => KeepsReconcileCreate(s, step);
    }
  }

  /** The board before and after a worker's move, as far as registration can tell. */
  ghost predicate SameShape(board: Board, after: Board) {
    && (forall id :: id in after <==> id in board)
    && (forall id :: Live(after, id) <==> Live(board, id))
    && (forall id :: id in board ==> after[id].key == board[id].key && after[id].parent == board[id].parent)
    && (forall id :: id in board && board[id].key == 0 && board[id].status == Done ==> after[id].status == Done)
    && (BarrierDone(after) ==> BarrierDone(board))
  }

  lemma ShapeKeepsMarker(s: State, after: Board)
    requires Inv(s) && SameShape(s.board, after)
    ensures MarkerFits(s.(board := after))
  {
    assert forall ids :: ChildFirst(s.board, ids) ==> ChildFirst(after, ids);
  }

  lemma ShapeKeepsPoint(s: State, after: Board)
    requires Inv(s) && SameShape(s.board, after)
    ensures PointFits(s.(board := after))
  {
    assert forall ids :: ChildFirst(s.board, ids) ==> ChildFirst(after, ids);
  }

  lemma WorkKeepsBoard(s: State, step: Step)
    requires BoardFits(s) && step.Work? && Next(s, step).Some?
    ensures BoardFits(Next(s, step).value)
    ensures SameShape(s.board, SetStatus(s.board, step.id, step.status))
  {
    LiveStatusKeepsLife(s.board, step.id, step.status);
    StatusKeepsShape(s.board, step.id, step.status);
  }

  lemma KeepsWork(s: State, step: Step)
    requires Inv(s) && step.Work? && Next(s, step).Some?
    ensures Inv(Next(s, step).value)
  {
    var after := SetStatus(s.board, step.id, step.status);
    WorkKeepsBoard(s, step);
    ShapeKeepsMarker(s, after);
    ShapeKeepsPoint(s, after);
  }

  lemma KeepsCrash(s: State, step: Step)
    requires Inv(s) && step.Crash? && Next(s, step).Some?
    ensures Inv(Next(s, step).value)
  {
  }

  predicate IsCreateStep(step: Step) {
    step.Begin? || step.PersistCreate? || step.CreateReturned? || step.CreateRefused? || step.CreateLost?
    || step.Resolve? || step.LandLate? || step.NeverLand? || step.RecordCreated?
  }

  lemma CreateStepKeeps(s: State, step: Step)
    requires Inv(s) && IsCreateStep(step) && Next(s, step).Some?
    ensures Inv(Next(s, step).value)
  {
    match step {
      case Begin => KeepsBegin(s, step);
      case PersistCreate(_) => KeepsPersistCreate(s, step);
      case CreateReturned(_) => KeepsCreateReturned(s, step);
      case CreateRefused(_) => KeepsCreateRefused(s, step);
      case CreateLost(_, _) => KeepsCreateLost(s, step);
      case Resolve(_) => KeepsResolve(s, step);
      case LandLate(_) => KeepsLandLate(s, step);
      case NeverLand =>
      case RecordCreated(_) => KeepsRecordCreated(s, step);
    }
  }

  lemma StepKeeps(s: State, step: Step)
    requires Inv(s) && Next(s, step).Some?
    ensures Inv(Next(s, step).value)
  {
    if IsCreateStep(step) {
      CreateStepKeeps(s, step);
    } else {
      match step {
        case Cancel(_) => KeepsCancel(s, step);
        case WriteSentinel(_) => KeepsWriteSentinel(s, step);
        case PersistCommit(_) => KeepsPersistCommit(s, step);
        case CompleteBarrier(_, _) => KeepsCompleteBarrier(s, step);
        case ClearCommitted(_) => KeepsClearCommitted(s, step);
        case PersistCleanup(_) => KeepsPersistCleanup(s, step);
        case ArchiveOne(_, _) => KeepsArchiveOne(s, step);
        case ClearCleanup(_) => KeepsClearCleanup(s, step);
        case Reconcile(_, _, _) => KeepsReconcile(s, step);
        case Work(_, _) => KeepsWork(s, step);
        case Crash => KeepsCrash(s, step);
      }
    }
  }

  function Run(s: State, steps: seq<Step>): Option<State>
    decreases |steps|
  {
    if steps == [] then Some(s)
    else
      var next := Next(s, steps[0]);
      if next.None? then None else Run(next.value, steps[1..])
  }

  lemma {:induction false} RunKeeps(s: State, steps: seq<Step>)
    requires Inv(s) && Run(s, steps).Some?
    ensures Inv(Run(s, steps).value)
    decreases |steps|
  {
    if steps != [] {
      StepKeeps(s, steps[0]);
      RunKeeps(Next(s, steps[0]).value, steps[1..]);
    }
  }

  ghost predicate Reachable(phases: nat, s: State, steps: seq<Step>) {
    Run(Initial(phases), steps) == Some(s)
  }

  // ----- the theorems -----

  /** Every card above `id`, up to the barrier, is done. */
  ghost predicate AllAncestorsDone(board: Board, id: CardId)
    requires Structured(board) && id in board
    decreases board[id].key
  {
    match board[id].parent
    case None => true
    case Some(parent) => board[parent].status == Done && AllAncestorsDone(board, parent)
  }

  lemma {:induction false} AncestorsReachBarrier(board: Board, id: CardId)
    requires Structured(board) && id in board && board[id].key > 0 && AllAncestorsDone(board, id)
    ensures BarrierDone(board)
    decreases board[id].key
  {
    var parent := board[id].parent.value;
    if board[parent].key > 0 { AncestorsReachBarrier(board, parent); }
  }

  /**
   * Registration is all or nothing: a phase card whose ancestors are all done
   * implies the whole chain exists and the sentinel and commit marker were
   * durable, wherever crashes, timeouts and lost answers fell.
   */
  lemma NoPhaseRunsBeforeCommit(phases: nat, s: State, steps: seq<Step>, id: CardId)
    requires Reachable(phases, s, steps) && id in s.board && s.board[id].key > 0
    ensures Structured(s.board)
    ensures AllAncestorsDone(s.board, id) ==>
      && s.sentinel && s.committed
      && |s.chain| == phases + 1 && ChildFirst(s.board, s.chain)
  {
    assert Inv(Initial(phases));
    RunKeeps(Initial(phases), steps);
    PhasesFixed(Initial(phases), steps);
    if AllAncestorsDone(s.board, id) { AncestorsReachBarrier(s.board, id); }
  }

  lemma PhasesFixedByStep(s: State, step: Step)
    requires Next(s, step).Some?
    ensures Next(s, step).value.phases == s.phases
  {
  }

  lemma {:induction false} PhasesFixed(s: State, steps: seq<Step>)
    requires Run(s, steps).Some?
    ensures Run(s, steps).value.phases == s.phases
    decreases |steps|
  {
    if steps != [] {
      PhasesFixedByStep(s, steps[0]);
      PhasesFixed(Next(s, steps[0]).value, steps[1..]);
    }
  }

  /** The identifiers a later reconciliation can reach from the marker alone. */
  ghost predicate NamedByMarker(s: State, id: CardId) {
    match s.marker
    case None => false
    case Some(Create(key, known)) => id in known || (id in s.board && s.board[id].key == key)
    case Some(Cleanup(ids)) => id in ids
    case Some(Commit(_, ids)) => id in ids
  }

  /** Until the barrier is done, no live card is out of reach of the durable marker. */
  lemma MarkerCoversLiveCards(phases: nat, s: State, steps: seq<Step>, id: CardId)
    requires Reachable(phases, s, steps) && Live(s.board, id) && !BarrierDone(s.board)
    ensures NamedByMarker(s, id)
  {
    assert Inv(Initial(phases));
    RunKeeps(Initial(phases), steps);
    if s.marker.None? { LiveWithoutMarkerIsCommitted(s, id); }
  }

  lemma LiveWithoutMarkerIsCommitted(s: State, id: CardId)
    requires Inv(s) && s.marker.None? && Live(s.board, id)
    ensures BarrierDone(s.board) && Registered(s) && AllLive(s.board, s.chain) && Covers(s.board, s.chain)
  {
    assert s.board[s.chain[|s.chain| - 1]].key == 0;
  }

  /**
   * A reconciliation that reports success leaves no marker, and either the whole
   * chain committed or nothing of it alive.
   */
  lemma ReconciledIsAllOrNothing(phases: nat, s: State, steps: seq<Step>)
    requires Reachable(phases, s, steps) && ReconcileSucceeded(s)
    ensures || (forall id :: id in s.board ==> s.board[id].status == Archived)
            || (BarrierDone(s.board) && Registered(s) && AllLive(s.board, s.chain) && Covers(s.board, s.chain))
  {
    assert Inv(Initial(phases));
    RunKeeps(Initial(phases), steps);
    if id :| id in s.board && s.board[id].status != Archived {
      LiveWithoutMarkerIsCommitted(s, id);
    }
  }

  /** At no moment, cleanup included, is a live card below an archived one. */
  lemma CleanupIsChildFirst(phases: nat, s: State, steps: seq<Step>, id: CardId)
    requires Reachable(phases, s, steps) && Live(s.board, id)
    ensures Structured(s.board) && AllAncestorsLive(s.board, id)
  {
    assert Inv(Initial(phases));
    RunKeeps(Initial(phases), steps);
    AncestorsLive(s.board, id);
  }

  ghost predicate AllAncestorsLive(board: Board, id: CardId)
    requires Structured(board) && id in board
    decreases board[id].key
  {
    match board[id].parent
    case None => true
    case Some(parent) => Live(board, parent) && AllAncestorsLive(board, parent)
  }

  lemma {:induction false} AncestorsLive(board: Board, id: CardId)
    requires Sane(board) && Live(board, id)
    ensures AllAncestorsLive(board, id)
    decreases board[id].key
  {
    if board[id].parent.Some? { AncestorsLive(board, board[id].parent.value); }
  }

  // ----- a create that never landed -----

  /** Nobody at work, a durable create marker, no card of its key on the board, and none on its way there. */
  predicate Unlanded(s: State) {
    && s.point == Idle && s.marker.Some? && s.marker.value.Create? && s.inFlight.None?
    && forall id :: id in s.board ==> s.board[id].key != s.marker.value.key
  }

  /** Reconciling a create marker leaves everything as it is exactly when the listing shows no live card of the key. */
  lemma ReconcileLeavesCreateExactly(s: State, step: Step)
    requires s.point == Idle && s.marker.Some? && s.marker.value.Create?
    requires step.Reconcile? && Next(s, step).Some?
    ensures Next(s, step).value == s <==> !step.readable || NoLiveCard(s.board, s.marker.value.key)
  {
  }

  lemma UnlandedStays(s: State, step: Step)
    requires Unlanded(s) && Next(s, step).Some?
    ensures Unlanded(Next(s, step).value) && Next(s, step).value.marker == s.marker
  {
  }

  lemma {:induction false} UnlandedForever(s: State, steps: seq<Step>)
    requires Unlanded(s) && Run(s, steps).Some?
    ensures Unlanded(Run(s, steps).value) && Run(s, steps).value.marker == s.marker
    decreases |steps|
  {
    if steps != [] {
      UnlandedStays(s, steps[0]);
      UnlandedForever(Next(s, steps[0]).value, steps[1..]);
    }
  }

  lemma RunStep(s: State, step: Step, t: State, rest: seq<Step>)
    requires Next(s, step) == Some(t)
    ensures Run(s, [step] + rest) == Run(t, rest)
  {
    assert ([step] + rest)[0] == step && ([step] + rest)[1..] == rest;
  }

  /** A crash right after the first marker was written, and a create that was not sent, leave such a state. */
  lemma UnlandedIsReached(phases: nat) returns (s: State)
    ensures Reachable(phases, s, [Begin] + ([PersistCreate(true)] + ([Crash] + ([NeverLand] + [])))) && Unlanded(s)
  {
    var s1 := Initial(phases).(point := Starting([]));
    var s2 := s1.(marker := Some(Create(0, [])), point := Calling([]));
    var s3 := s2.(inFlight := Some([]), point := Idle);
    s := s3.(inFlight := None);
    RunStep(s3, NeverLand, s, []);
    RunStep(s2, Crash, s3, [NeverLand] + []);
    RunStep(s1, PersistCreate(true), s2, [Crash] + ([NeverLand] + []));
    RunStep(Initial(phases), Begin, s1, [PersistCreate(true)] + ([Crash] + ([NeverLand] + [])));
  }

  /** Two steps away: the card is found and the marker becomes a cleanup. */
  lemma LandedIsResolved(s: State, id: CardId) returns (steps: seq<Step>)
    requires s.point == Idle && s.marker.Some? && s.marker.value.Create?
    requires Live(s.board, id) && s.board[id].key == s.marker.value.key
    ensures Run(s, steps).Some? && Run(s, steps).value.marker != s.marker
  {
    var first, second := Reconcile(false, true, Some(id)), PersistCleanup(true);
    var t := Next(s, first).value;
    assert t.point.Cleaning?;
    var u := Next(t, second).value;
    RunStep(t, second, u, []);
    RunStep(s, first, t, [second] + []);
    steps := [first] + ([second] + []);
  }

  /** The create in flight lands, and then its card is found. */
  lemma InFlightIsResolved(s: State) returns (steps: seq<Step>)
    requires Inv(s) && s.point == Idle && s.inFlight.Some?
    ensures Run(s, steps).Some? && Run(s, steps).value.marker != s.marker
  {
    var id := NewNumber(s.board.Keys);
    var known := s.inFlight.value;
    forall other | other in s.board
      ensures s.board[other].key != |known|
    {
      if s.board[other].key == |known| { FlightHasNoCard(s, other); }
    }
    var t := Next(s, LandLate(id)).value;
    var rest := LandedIsResolved(t, id);
    RunStep(s, LandLate(id), t, rest);
    steps := [LandLate(id)] + rest;
  }

  /** No run whatever from here replaces or removes the marker. */
  ghost predicate PendingForever(s: State) {
    forall steps :: Run(s, steps).Some? ==> Run(s, steps).value.marker == s.marker
  }

  /**
   * In every reachable state with nobody at work and a create marker: the marker stays for
   * good, whatever is called and whatever else happens, if and only if no card of its key is
   * on the board and no create of it is in flight.
   */
  lemma PendingForeverExactly(phases: nat, s: State, steps: seq<Step>)
    requires Reachable(phases, s, steps) && s.point == Idle && s.marker.Some? && s.marker.value.Create?
    ensures PendingForever(s) <==> Unlanded(s)
  {
    assert Inv(Initial(phases));
    RunKeeps(Initial(phases), steps);
    if Unlanded(s) {
      forall more | Run(s, more).Some?
        ensures Run(s, more).value.marker == s.marker
      {
        UnlandedForever(s, more);
      }
    } else if s.inFlight.Some? {
      var more := InFlightIsResolved(s);
    } else {
      var id :| id in s.board && s.board[id].key == s.marker.value.key;
      var more := LandedIsResolved(s, id);
    }
  }
}
