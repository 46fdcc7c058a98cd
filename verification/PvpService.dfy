/**
  The PVP game service: rooms, the list of active rooms and the next room id are
  records of one store, changed together by atomic writes that may fail or land
  unseen (HTTPServer/WebApps/GomokuServer/src/PvpGameService.cpp).
 */
module PvpService {
  import opened Common
  import opened JsonValue
  import opened Gomoku
  import opened GomokuRoom
  import opened PvpStore

  const BoardSize: nat := 15

  /** `Threw` is an exception that leaves the service: a next-room-id record that is not a number. */
  datatype Status = Ok | RoomNotFound | InvalidMove | GameOver | NotYourTurn | Unavailable | Threw

  datatype Answer = Answer(status: Status, snapshot: Json)

  /** Which store calls of an operation time out, and what becomes of its write. */
  datatype Faults = Faults(first: bool, second: bool, read: bool, put: Write) {
    function Effect(): Write { if read then Fails else put }
  }

  /** erase(remove(...)) */
  function Without(elems: seq<Json>, id: int): seq<Json> {
    if elems == [] then []
    else
      var rest := Without(elems[..|elems| - 1], id);
      if elems[|elems| - 1] == Num(id) then rest else rest + [elems[|elems| - 1]]
  }

  function CreateRoom(m: Values, player1: int, player2: int, f: Faults): (Values, Answer) {
    var next := Load(m, NextKey, f.first);
    if next.LoadUnavailable? then (m, Answer(Unavailable, Null))
    else if next.Loaded? && !next.value.Num? then (m, Answer(Threw, Null))
    else
      var id := if next.Loaded? then next.value.n else 1;
      var snapshot := Snapshot(NewRoom(BoardSize, id, player1, player2));
      var active := Load(m, ActiveKey, f.second);
      if active.LoadUnavailable? || (active.Loaded? && !active.value.Arr?) then (m, Answer(Unavailable, Null))
      else
        var ids := (if active.Loaded? then active.value.elems else []) + [Num(id)];
        var records := [(RoomKey(id), snapshot), (ActiveKey, Arr(ids)), (NextKey, Num(id + 1))];
        (Commit(m, records, f.Effect()), if f.Effect() == Lands then Answer(Ok, snapshot) else Answer(Unavailable, Null))
  }

  function LoadRoom(m: Values, id: int, down: bool): Answer {
    match Load(m, RoomKey(id), down)
    case NotFound => Answer(RoomNotFound, Null)
    case LoadUnavailable => Answer(Unavailable, Null)
    case Loaded(value) => Answer(Ok, value)
  }

  /** The write that ends a game: the room and the active list together. */
  function Close(m: Values, id: int, current: Json, r: Room, f: Faults): (Values, Answer) {
    var active := Load(m, ActiveKey, f.second);
    if !active.Loaded? || !active.value.Arr? then (m, Answer(Unavailable, current))
    else
      var records := [(RoomKey(id), Snapshot(r)), (ActiveKey, Arr(Without(active.value.elems, id)))];
      (Commit(m, records, f.Effect()), if f.Effect() == Lands then Answer(Ok, Snapshot(r)) else Answer(Unavailable, current))
  }

  ghost function MoveRoom(m: Values, id: int, player: int, x: int, y: int, f: Faults): (Values, Answer) {
    var current := LoadRoom(m, id, f.first);
    if current.status != Ok then (m, current)
    else
      var room := FromSnapshot(current.snapshot);
      if room.None? then (m, Answer(Unavailable, Null))
      else
        var (r, code) := Move(room.value, player, x, y);
        if code == -1 then (m, Answer(InvalidMove, current.snapshot))
        else if code == -2 then (m, Answer(GameOver, current.snapshot))
        else if code == -3 then (m, Answer(NotYourTurn, current.snapshot))
        else MovedTo(m, id, current.snapshot, r, f)
  }

  /** The write of a move that was accepted. */
  function MovedTo(m: Values, id: int, current: Json, r: Room, f: Faults): (Values, Answer) {
    if r.gameOver then Close(m, id, current, r, f)
    else (Commit(m, [(RoomKey(id), Snapshot(r))], f.Effect()),
          if f.Effect() == Lands then Answer(Ok, Snapshot(r)) else Answer(Unavailable, current))
  }

  function FinishRoom(m: Values, id: int, winner: int, f: Faults): (Values, Answer) {
    var current := LoadRoom(m, id, f.first);
    if current.status != Ok then (m, current)
    else
      var room := FromSnapshot(current.snapshot);
      if room.None? then (m, Answer(Unavailable, Null))
      else Close(m, id, current.snapshot, if room.value.gameOver then room.value else Forfeit(room.value, winner), f)
  }

  // ------------------------------------------------------------- the invariant

  function NextId(m: Values): int { if NextKey in m && m[NextKey].Num? then m[NextKey].n else 1 }

  function Active(m: Values): seq<Json> { if ActiveKey in m && m[ActiveKey].Arr? then m[ActiveKey].elems else [] }

  ghost predicate Stored(m: Values, id: int) { RoomKey(id) in m }

  /** A stored room whose game goes on. */
  ghost predicate Unfinished(m: Values, id: int) { Stored(m, id) && Going(m[RoomKey(id)]) }

  ghost predicate Going(j: Json) { FromSnapshot(j).Some? && !FromSnapshot(j).value.gameOver }

  ghost predicate IsRecord(j: Json, id: int, r: Room) {
    && j == Snapshot(r) && r.roomId == id && (r.player1 != r.player2 ==> Fair(r))
    && |r.board| == BoardSize && Square(r.board)
  }

  /** A record of room `id`: the snapshot of a room with that id on the full board, fair if its players differ. */
  ghost predicate RoomRecord(j: Json, id: int) { exists r: Room :: IsRecord(j, id, r) }

  ghost predicate DuplicateFree(elems: seq<Json>) {
    forall j, k | 0 <= j < k < |elems| :: elems[j] != elems[k]
  }

  ghost predicate Typed(m: Values) {
    && (NextKey in m ==> m[NextKey].Num?) && NextId(m) >= 1
    && (ActiveKey in m ==> m[ActiveKey].Arr?)
    && (forall j | j in Active(m) :: j.Num?)
  }

  ghost predicate RoomsBelow(m: Values, next: int) {
    forall id: int | Stored(m, id) :: 1 <= id < next && RoomRecord(m[RoomKey(id)], id)
  }

  ghost predicate Lists(m: Values, elems: seq<Json>) {
    forall id: int :: Num(id) in elems <==> Unfinished(m, id)
  }

  /** The stored indexes are consistent: every stored id is below the next one, and the
      active list holds exactly the stored rooms that are not over, each once. */
  ghost predicate Consistent(m: Values) {
    Typed(m) && DuplicateFree(Active(m)) && RoomsBelow(m, NextId(m)) && Lists(m, Active(m))
  }

  lemma AllKeysDistinct()
    ensures forall a: int, b: int :: RoomKey(a) == RoomKey(b) ==> a == b
    ensures forall a: int :: RoomKey(a) != ActiveKey && RoomKey(a) != NextKey
    ensures ActiveKey != NextKey
  {
    forall a: int, b: int ensures RoomKey(a) == RoomKey(b) ==> a == b { KeysDistinct(a, b); }
    forall a: int ensures RoomKey(a) != ActiveKey && RoomKey(a) != NextKey { KeysDistinct(a, a); }
    KeysDistinct(0, 0);
  }

  lemma {:induction false} WithoutIs(elems: seq<Json>, id: int, j: Json)
    ensures j in Without(elems, id) <==> j in elems && j != Num(id)
  {
    if elems != [] {
      WithoutIs(elems[..|elems| - 1], id, j);
      assert elems == elems[..|elems| - 1] + [elems[|elems| - 1]];
    }
  }

  lemma {:induction false} WithoutDuplicates(elems: seq<Json>, id: int)
    requires DuplicateFree(elems)
    ensures DuplicateFree(Without(elems, id))
  {
    if elems != [] {
      var front := elems[..|elems| - 1];
      WithoutDuplicates(front, id);
      WithoutIs(front, id, elems[|elems| - 1]);
    }
  }

  lemma RecordGoing(r: Room)
    ensures Going(Snapshot(r)) <==> !r.gameOver
  {
    SnapshotReadsBack(r);
  }

  lemma RecordIs(j: Json, id: int) returns (r: Room)
    requires RoomRecord(j, id)
    ensures IsRecord(j, id, r) && FromSnapshot(j) == Some(r)
  {
    r :| IsRecord(j, id, r);
    SnapshotReadsBack(r);
  }

  /** Only the record of room `id` may differ. */
  ghost predicate SameOthers(m: Values, m': Values, id: int) {
    forall k: int | k != id :: (Stored(m', k) <==> Stored(m, k)) && (Stored(m, k) ==> m'[RoomKey(k)] == m[RoomKey(k)])
  }

  lemma RoomsStayBelow(m: Values, m': Values, id: int, next: int, next': int)
    requires RoomsBelow(m, next) && SameOthers(m, m', id) && next <= next' && 1 <= id < next'
    requires Stored(m', id) && RoomRecord(m'[RoomKey(id)], id)
    ensures RoomsBelow(m', next')
  {
  }

  lemma ListStaysExact(m: Values, m': Values, id: int, elems: seq<Json>, elems': seq<Json>)
    requires Lists(m, elems) && SameOthers(m, m', id)
    requires Num(id) in elems' <==> Unfinished(m', id)
    requires forall k: int | k != id :: Num(k) in elems' <==> Num(k) in elems
    ensures Lists(m', elems')
  {
    forall k: int ensures Num(k) in elems' <==> Unfinished(m', k) { }
  }

  /** The three records of createRoom. */
  ghost predicate Creates(m: Values, m': Values, id: int, j: Json) {
    m' == m[RoomKey(id) := j][ActiveKey := Arr(Active(m) + [Num(id)])][NextKey := Num(id + 1)]
  }

  lemma CreateFrame(m: Values, m': Values, id: int, j: Json)
    requires Creates(m, m', id, j)
    ensures SameOthers(m, m', id) && Stored(m', id) && m'[RoomKey(id)] == j
    ensures ActiveKey in m' && m'[ActiveKey] == Arr(Active(m) + [Num(id)]) && NextKey in m' && m'[NextKey] == Num(id + 1)
  {
    AllKeysDistinct();
  }

  lemma CreateKeeps(m: Values, m': Values, id: int, j: Json)
    requires Consistent(m) && Creates(m, m', id, j) && id == NextId(m) && RoomRecord(j, id) && Going(j)
    ensures Consistent(m') && !Stored(m, id) && NextId(m') == id + 1 && SameOthers(m, m', id) && Stored(m', id)
  {
    CreateFrame(m, m', id, j);
    var elems, elems' := Active(m), Active(m) + [Num(id)];
    assert Num(id) !in elems;
    RoomsStayBelow(m, m', id, id, id + 1);
    ListStaysExact(m, m', id, elems, elems');
  }

  /** The room record `id` changes, and the active list loses it when the game is over. */
  ghost predicate Updates(m: Values, m': Values, id: int, j: Json, over: bool) {
    if over then m' == m[RoomKey(id) := j][ActiveKey := Arr(Without(Active(m), id))] else m' == m[RoomKey(id) := j]
  }

  lemma UpdateFrame(m: Values, m': Values, id: int, j: Json, over: bool)
    requires Updates(m, m', id, j, over)
    ensures SameOthers(m, m', id) && Stored(m', id) && m'[RoomKey(id)] == j
    ensures NextKey in m' <==> NextKey in m
    ensures NextKey in m ==> m'[NextKey] == m[NextKey]
    ensures over ==> ActiveKey in m' && m'[ActiveKey] == Arr(Without(Active(m), id))
    ensures !over ==> (ActiveKey in m' <==> ActiveKey in m) && (ActiveKey in m ==> m'[ActiveKey] == m[ActiveKey])
  {
    AllKeysDistinct();
  }

  lemma WithoutList(elems: seq<Json>, id: int)
    ensures Num(id) !in Without(elems, id)
    ensures forall j :: j in Without(elems, id) <==> j in elems && j != Num(id)
  {
    forall j ensures j in Without(elems, id) <==> j in elems && j != Num(id) { WithoutIs(elems, id, j); }
  }

  lemma UpdateKeeps(m: Values, m': Values, id: int, j: Json, over: bool)
    requires Consistent(m) && Updates(m, m', id, j, over) && Stored(m, id) && RoomRecord(j, id)
    requires Going(j) <==> !over
    requires !over ==> Unfinished(m, id)
    ensures Consistent(m') && NextId(m') == NextId(m) && SameOthers(m, m', id) && Stored(m', id)
  {
    UpdateFrame(m, m', id, j, over);
    var elems, elems' := Active(m), Active(m');
    if over {
      WithoutDuplicates(elems, id);
      WithoutList(elems, id);
    }
    RoomsStayBelow(m, m', id, NextId(m), NextId(m));
    ListStaysExact(m, m', id, elems, elems');
  }

  // ------------------------------------------------------------------ operations

  lemma PutThree(m: Values, a: (string, Json), b: (string, Json), c: (string, Json))
    ensures PutAll(m, [a]) == m[a.0 := a.1]
    ensures PutAll(m, [a, b]) == m[a.0 := a.1][b.0 := b.1]
    ensures PutAll(m, [a, b, c]) == m[a.0 := a.1][b.0 := b.1][c.0 := c.1]
  {
    assert [a, b, c][..2] == [a, b] && [a, b][..1] == [a] && [a][..0] == [];
  }

  lemma NewRecord(id: int, player1: int, player2: int)
    ensures var j := Snapshot(NewRoom(BoardSize, id, player1, player2)); RoomRecord(j, id) && Going(j)
  {
    var r := NewRoom(BoardSize, id, player1, player2);
    if player1 != player2 { NewRoomFair(BoardSize, id, player1, player2); }
    RecordGoing(r);
    assert IsRecord(Snapshot(r), id, r);
  }

  /** createRoom writes its three records or nothing. */
  lemma CreateRoomShape(m: Values, player1: int, player2: int, f: Faults)
    requires Typed(m)
    ensures var (m', answer) := CreateRoom(m, player1, player2, f);
      var j := Snapshot(NewRoom(BoardSize, NextId(m), player1, player2));
      && (answer.status == Ok || answer.status == Unavailable)
      && (m' == m || Creates(m, m', NextId(m), j))
      && (answer.status == Ok ==> Creates(m, m', NextId(m), j) && answer.snapshot == j)
  {
    var id := NextId(m);
    PutThree(m, (RoomKey(id), Snapshot(NewRoom(BoardSize, id, player1, player2))), (ActiveKey, Arr(Active(m) + [Num(id)])),
             (NextKey, Num(id + 1)));
  }

  /** createRoom keeps the indexes consistent; when it writes, the room is new and gets the next id. */
  lemma CreateRoomKeeps(m: Values, player1: int, player2: int, f: Faults)
    requires Consistent(m)
    ensures var (m', answer) := CreateRoom(m, player1, player2, f);
      && Consistent(m') && answer.status != Threw
      && (m' == m || CreatedAt(m, m', NextId(m), Snapshot(NewRoom(BoardSize, NextId(m), player1, player2))))
      && (answer.status == Ok ==> CreatedAt(m, m', NextId(m), answer.snapshot))
  {
    var j := Snapshot(NewRoom(BoardSize, NextId(m), player1, player2));
    CreateRoomShape(m, player1, player2, f);
    NewRecord(NextId(m), player1, player2);
    CreatedKeeps(m, CreateRoom(m, player1, player2, f).0, NextId(m), j);
  }

  lemma CreatedKeeps(m: Values, m': Values, id: int, j: Json)
    requires Consistent(m) && id == NextId(m) && RoomRecord(j, id) && Going(j)
    ensures Creates(m, m', id, j) ==> Consistent(m') && CreatedAt(m, m', id, j)
  {
    if Creates(m, m', id, j) {
      CreateKeeps(m, m', id, j);
      CreateFrame(m, m', id, j);
    }
  }

  ghost predicate CreatedAt(m: Values, m': Values, id: int, j: Json) {
    !Stored(m, id) && SameOthers(m, m', id) && Stored(m', id) && m'[RoomKey(id)] == j && NextId(m') == id + 1
  }

  /** What a call on room `id` may do: nothing, or replace its record. */
  ghost predicate UpdatedAt(m: Values, m': Values, id: int) {
    m' == m || (Stored(m, id) && Stored(m', id) && SameOthers(m, m', id) && NextId(m') == NextId(m))
  }

  lemma CloseKeeps(m: Values, id: int, current: Json, r: Room, f: Faults)
    requires Consistent(m) && Stored(m, id) && r.gameOver && IsRecord(Snapshot(r), id, r)
    ensures var (m', answer) := Close(m, id, current, r, f);
      && Consistent(m') && UpdatedAt(m, m', id)
      && (answer.status == Ok ==> answer.snapshot == Snapshot(r) && Stored(m', id) && m'[RoomKey(id)] == Snapshot(r))
  {
    var (m', answer) := Close(m, id, current, r, f);
    if m' != m || answer.status == Ok {
      RecordGoing(r);
      PutThree(m, (RoomKey(id), Snapshot(r)), (ActiveKey, Arr(Without(Active(m), id))), ("", Null));
      UpdateKeeps(m, m', id, Snapshot(r), true);
      UpdateFrame(m, m', id, Snapshot(r), true);
    }
  }

  lemma PlainWriteKeeps(m: Values, id: int, r: Room, f: Faults)
    requires Consistent(m) && Unfinished(m, id) && !r.gameOver && IsRecord(Snapshot(r), id, r)
    ensures var m' := Commit(m, [(RoomKey(id), Snapshot(r))], f.Effect());
      Consistent(m') && UpdatedAt(m, m', id) && (f.Effect() == Lands ==> Stored(m', id) && m'[RoomKey(id)] == Snapshot(r))
  {
    var m' := Commit(m, [(RoomKey(id), Snapshot(r))], f.Effect());
    RecordGoing(r);
    PutThree(m, (RoomKey(id), Snapshot(r)), ("", Null), ("", Null));
    if f.Effect() != Fails {
      UpdateKeeps(m, m', id, Snapshot(r), false);
      UpdateFrame(m, m', id, Snapshot(r), false);
    }
  }

  lemma MovedRecord(room: Room, id: int, player: int, x: int, y: int)
    requires IsRecord(Snapshot(room), id, room)
    ensures var r := Move(room, player, x, y).0; IsRecord(Snapshot(r), id, r)
  {
    if room.player1 != room.player2 { MoveFair(room, player, x, y); }
  }

  /** move after its reads: a refused move writes nothing. */
  lemma MoveRoomShape(m: Values, id: int, player: int, x: int, y: int, f: Faults, room: Room)
    requires LoadRoom(m, id, f.first).status == Ok && RoomKey(id) in m && FromSnapshot(m[RoomKey(id)]) == Some(room)
    ensures var (r, code) := Move(room, player, x, y);
      && (code != 0 ==> MoveRoom(m, id, player, x, y, f).0 == m && MoveRoom(m, id, player, x, y, f).1.status != Ok)
      && (code == 0 ==> !room.gameOver && MoveRoom(m, id, player, x, y, f) == MovedTo(m, id, m[RoomKey(id)], r, f))
  {
  }

  lemma MovedToKeeps(m: Values, id: int, current: Json, r: Room, f: Faults)
    requires Consistent(m) && Unfinished(m, id) && IsRecord(Snapshot(r), id, r)
    ensures var (m', answer) := MovedTo(m, id, current, r, f);
      && Consistent(m') && UpdatedAt(m, m', id)
      && (answer.status == Ok ==> Stored(m', id) && m'[RoomKey(id)] == answer.snapshot)
  {
    if r.gameOver { CloseKeeps(m, id, current, r, f); } else { PlainWriteKeeps(m, id, r, f); }
  }

  /** move keeps the indexes consistent and touches no other room. */
  lemma MoveRoomKeeps(m: Values, id: int, player: int, x: int, y: int, f: Faults)
    requires Consistent(m)
    ensures var (m', answer) := MoveRoom(m, id, player, x, y, f);
      && Consistent(m') && UpdatedAt(m, m', id)
      && (answer.status == Ok ==> Stored(m', id) && m'[RoomKey(id)] == answer.snapshot)
  {
    if LoadRoom(m, id, f.first).status == Ok {
      var room := RecordIs(m[RoomKey(id)], id);
      MoveRoomShape(m, id, player, x, y, f, room);
      MovedRecord(room, id, player, x, y);
      if Move(room, player, x, y).1 == 0 { MovedToKeeps(m, id, m[RoomKey(id)], Move(room, player, x, y).0, f); }
    }
  }

  /** finish keeps the indexes consistent and touches no other room. */
  lemma FinishRoomKeeps(m: Values, id: int, winner: int, f: Faults)
    requires Consistent(m)
    ensures var (m', answer) := FinishRoom(m, id, winner, f);
      && Consistent(m') && UpdatedAt(m, m', id)
      && (answer.status == Ok ==> Stored(m', id) && m'[RoomKey(id)] == answer.snapshot)
  {
    if LoadRoom(m, id, f.first).status == Ok {
      var room := RecordIs(m[RoomKey(id)], id);
      var r := if room.gameOver then room else Forfeit(room, winner);
      if room.player1 != room.player2 { ForfeitFair(room, winner); }
      CloseKeeps(m, id, m[RoomKey(id)], r, f);
    }
  }

  // ------------------------------------------------------------------------ runs

  datatype Call =
    | Create(player1: int, player2: int, f: Faults)
    | MoveIn(id: int, player: int, x: int, y: int, f: Faults)
    | Finish(id: int, winner: int, f: Faults)

  ghost function Do(m: Values, c: Call): (Values, Answer) {
    match c
    case Create(player1, player2, f) => CreateRoom(m, player1, player2, f)
    case MoveIn(id, player, x, y, f) => MoveRoom(m, id, player, x, y, f)
    case Finish(id, winner, f) => FinishRoom(m, id, winner, f)
  }

  /** The store after `calls` on an empty one. */
  ghost function After(calls: seq<Call>): Values {
    if calls == [] then map[] else Do(After(calls[..|calls| - 1]), calls[|calls| - 1]).0
  }

  /** A call whose write fails, or lands unseen, leaves either the old records or
      exactly those the call leaves when nothing fails. */
  lemma CallsAreAtomic(m: Values, c: Call)
    ensures var good := Faults(false, false, false, Lands);
      Do(m, c).0 == m || Do(m, c).0 == Do(m, c.(f := good)).0
  {
  }

  lemma DoKeeps(m: Values, c: Call)
    requires Consistent(m)
    ensures Consistent(Do(m, c).0) && NextId(m) <= NextId(Do(m, c).0)
    ensures forall id: int | Stored(m, id) :: Stored(Do(m, c).0, id)
  {
    match c
    case Create(player1, player2, f) => CreateRoomKeeps(m, player1, player2, f);
    case MoveIn(id, player, x, y, f) => MoveRoomKeeps(m, id, player, x, y, f);
    case Finish(id, winner, f) => FinishRoomKeeps(m, id, winner, f);
  }

  /** In every run the indexes are consistent. */
  lemma {:induction false} AlwaysConsistent(calls: seq<Call>)
    ensures Consistent(After(calls))
  {
    if calls != [] {
      AlwaysConsistent(calls[..|calls| - 1]);
      DoKeeps(After(calls[..|calls| - 1]), calls[|calls| - 1]);
    }
  }

  lemma {:induction false} NextIdGrows(calls: seq<Call>, j: nat)
    requires j <= |calls|
    ensures NextId(After(calls[..j])) <= NextId(After(calls))
    ensures forall id: int | Stored(After(calls[..j]), id) :: Stored(After(calls), id)
  {
    if j < |calls| {
      var front := calls[..|calls| - 1];
      assert front[..j] == calls[..j];
      NextIdGrows(front, j);
      AlwaysConsistent(front);
      DoKeeps(After(front), calls[|calls| - 1]);
    } else {
      assert calls[..j] == calls;
    }
  }

  /** Ids are never reused: a room created later, seen or unseen, gets a larger id, and
      none of the rooms before it had that id. */
  lemma IdsNeverReused(calls: seq<Call>, j: nat, k: nat)
    requires j < k < |calls| && calls[j].Create? && calls[k].Create?
    requires After(calls[..j + 1]) != After(calls[..j]) && After(calls[..k + 1]) != After(calls[..k])
    ensures NextId(After(calls[..j])) < NextId(After(calls[..k]))
    ensures Stored(After(calls[..k]), NextId(After(calls[..j]))) && !Stored(After(calls[..k]), NextId(After(calls[..k])))
    ensures Stored(After(calls[..k + 1]), NextId(After(calls[..k])))
  {
    Created(calls, j);
    Created(calls, k);
    assert calls[..k][..j + 1] == calls[..j + 1];
    NextIdGrows(calls[..k], j + 1);
  }

  lemma Created(calls: seq<Call>, j: nat)
    requires j < |calls| && calls[j].Create? && After(calls[..j + 1]) != After(calls[..j])
    ensures var id := NextId(After(calls[..j]));
      !Stored(After(calls[..j]), id) && Stored(After(calls[..j + 1]), id) && NextId(After(calls[..j + 1])) == id + 1
  {
    AlwaysConsistent(calls[..j]);
    assert calls[..j + 1][..j] == calls[..j];
    CreateRoomKeeps(After(calls[..j]), calls[j].player1, calls[j].player2, calls[j].f);
  }

  // -------------------------------------------------------------------- recovery

  /** recoverActiveRooms over the listed ids; `down` says which room reads time out. */
  function Recover(m: Values, elems: seq<Json>, down: nat -> bool): seq<Json>
    requires forall j | j in elems :: j.Num?
  {
    if elems == [] then []
    else Recover(m, elems[..|elems| - 1], down) + RecoverOne(m, elems[|elems| - 1], down(|elems| - 1))
  }

  function RecoverOne(m: Values, j: Json, down: bool): seq<Json>
    requires j.Num?
  {
    var current := LoadRoom(m, j.n, down);
    if current.status == Ok && !IsOver(current.snapshot) then [current.snapshot] else []
  }

  lemma RecoverGrows(m: Values, elems: seq<Json>, k: nat, down: nat -> bool)
    requires k < |elems| && forall j | j in elems :: j.Num?
    ensures forall i | 0 <= i <= |elems| :: forall j | j in elems[..i] :: j.Num?
    ensures Recover(m, elems[..k + 1], down) == Recover(m, elems[..k], down) + RecoverOne(m, elems[k], down(k))
  {
    assert elems[..k + 1][..k] == elems[..k];
  }

  /** The gameOver field of a room record. */
  predicate IsOver(j: Json) { Has(j, "gameOver") && Field(j, "gameOver") == Bool(true) }

  lemma GoingIsNotOver(j: Json, id: int)
    requires RoomRecord(j, id)
    ensures Going(j) <==> !IsOver(j)
  {
    var r := RecordIs(j, id);
  }

  /** The record an entry of the active list stands for. */
  function RecordOf(m: Values, j: Json): Json {
    if j.Num? && RoomKey(j.n) in m then m[RoomKey(j.n)] else Null
  }

  ghost predicate OpenEntry(m: Values, j: Json) {
    j.Num? && Unfinished(m, j.n) && RoomRecord(RecordOf(m, j), j.n)
  }

  lemma OpenIsRecovered(m: Values, j: Json)
    requires OpenEntry(m, j)
    ensures RecoverOne(m, j, false) == [RecordOf(m, j)]
  {
    GoingIsNotOver(RecordOf(m, j), j.n);
  }

  function RecordsOf(m: Values, elems: seq<Json>): seq<Json> {
    seq(|elems|, k requires 0 <= k < |elems| => RecordOf(m, elems[k]))
  }

  lemma RecordsGrow(m: Values, elems: seq<Json>, n: nat)
    requires |elems| == n + 1
    ensures RecordsOf(m, elems) == RecordsOf(m, elems[..n]) + [RecordOf(m, elems[n])]
  {
  }

  /** With reads that succeed, every listed room is recovered, in the order of the list. */
  lemma {:induction false} RecoverListed(m: Values, elems: seq<Json>, down: nat -> bool)
    requires forall j | j in elems :: j.Num? && RecoverOne(m, j, false) == [RecordOf(m, j)]
    requires forall k: nat :: !down(k)
    ensures Recover(m, elems, down) == RecordsOf(m, elems)
  {
    if elems != [] {
      var n := |elems| - 1;
      RecoverListed(m, elems[..n], down);
      RecordsGrow(m, elems, n);
      assert elems[n] in elems;
    }
  }

  lemma ActiveOpen(m: Values, j: Json)
    requires Consistent(m) && j in Active(m)
    ensures OpenEntry(m, j)
  {
    assert j == Num(j.n);
  }

  lemma EntriesDiffer(m: Values, i: Json, j: Json)
    requires OpenEntry(m, i) && OpenEntry(m, j) && i != j
    ensures RecordOf(m, i) != RecordOf(m, j)
  {
    var r := RecordIs(RecordOf(m, i), i.n);
    var t := RecordIs(RecordOf(m, j), j.n);
  }

  /** Recovery with successful reads returns exactly the unfinished rooms, each once. */
  lemma RecoveryIsExact(m: Values, down: nat -> bool)
    requires Consistent(m) && forall k: nat :: !down(k)
    ensures var rooms := Recover(m, Active(m), down);
      && (forall id: int | Unfinished(m, id) :: m[RoomKey(id)] in rooms)
      && (forall j | j in rooms :: exists id: int :: Unfinished(m, id) && m[RoomKey(id)] == j)
      && DuplicateFree(rooms)
  {
    var elems := Active(m);
    forall j | j in elems ensures OpenEntry(m, j) && RecoverOne(m, j, false) == [RecordOf(m, j)] {
      ActiveOpen(m, j);
      OpenIsRecovered(m, j);
    }
    RecoverListed(m, elems, down);
    RecoveredExactly(m, elems, Recover(m, elems, down));
  }

  lemma RecoveredExactly(m: Values, elems: seq<Json>, rooms: seq<Json>)
    requires Lists(m, elems) && DuplicateFree(elems) && |rooms| == |elems|
    requires forall j | j in elems :: OpenEntry(m, j)
    requires forall k | 0 <= k < |elems| :: rooms[k] == RecordOf(m, elems[k])
    ensures forall id: int | Unfinished(m, id) :: m[RoomKey(id)] in rooms
    ensures forall j | j in rooms :: exists id: int :: Unfinished(m, id) && m[RoomKey(id)] == j
    ensures DuplicateFree(rooms)
  {
    forall id: int | Unfinished(m, id) ensures m[RoomKey(id)] in rooms {
      assert Num(id) in elems;
      var k :| 0 <= k < |elems| && elems[k] == Num(id);
      assert rooms[k] == m[RoomKey(id)];
    }
    forall j | j in rooms ensures exists id: int :: Unfinished(m, id) && m[RoomKey(id)] == j {
      var k :| 0 <= k < |rooms| && rooms[k] == j;
      assert OpenEntry(m, elems[k]);
      assert Unfinished(m, elems[k].n);
    }
    forall a, b | 0 <= a < b < |rooms| ensures rooms[a] != rooms[b] { EntriesDiffer(m, elems[a], elems[b]); }
  }
}
