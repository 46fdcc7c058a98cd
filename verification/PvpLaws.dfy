/**
  What every call of the PVP service answers and writes, case by case
  (HTTPServer/WebApps/GomokuServer/src/PvpGameService.cpp).
 */
module PvpLaws {
  import opened Common
  import opened JsonValue
  import opened Gomoku
  import opened GomokuRoom
  import opened PvpStore
  import opened PvpService

  /** The write of a call is answered Ok exactly when neither its read nor its put fails or goes unseen. */
  predicate Seen(f: Faults) { !f.read && f.put == Lands }

  /** The records of a call are written, whether or not that is answered. */
  predicate Written(f: Faults) { !f.read && f.put != Fails }

  /** The value written under a key is that of the last record with the key. */
  lemma {:induction false} PutAllWrites(m: Values, records: Records, i: nat)
    requires i < |records| && forall j | i < j < |records| :: records[j].0 != records[i].0
    ensures records[i].0 in PutAll(m, records) && PutAll(m, records)[records[i].0] == records[i].1
  {
    var n := |records| - 1;
    if i < n { PutAllWrites(m, records[..n], i); }
  }

  /** All other keys stay. */
  lemma {:induction false} PutAllKeeps(m: Values, records: Records, key: string)
    requires forall j | 0 <= j < |records| :: records[j].0 != key
    ensures key in PutAll(m, records) <==> key in m
    ensures key in m ==> PutAll(m, records)[key] == m[key]
  {
    if records != [] { PutAllKeeps(m, records[..|records| - 1], key); }
  }

  /** A room is read as stored, is not found when it is not stored, and is unavailable when the read fails. */
  lemma LoadRoomIs(m: Values, id: int, down: bool)
    ensures var a := LoadRoom(m, id, down);
      && (a.status == Unavailable <==> down)
      && (a.status == RoomNotFound <==> !down && RoomKey(id) !in m)
      && (a.status == Ok <==> !down && RoomKey(id) in m)
      && (a.status == Ok ==> a.snapshot == m[RoomKey(id)])
  {
  }

  /** createRoom answers Ok with the new room exactly when both reads succeed and its write is seen, and
      Unavailable otherwise; the store changes exactly when the reads succeed and the write lands. */
  lemma CreateRoomIs(m: Values, player1: int, player2: int, f: Faults)
    requires Consistent(m)
    ensures var (m', a) := CreateRoom(m, player1, player2, f);
      var id, room := NextId(m), Snapshot(NewRoom(15, NextId(m), player1, player2));
      && (a.status == Ok <==> !f.first && !f.second && Seen(f)) && (a.status == Unavailable <==> a.status != Ok)
      && (a.status == Ok ==> a.snapshot == room)
      && (if !f.first && !f.second && Written(f) then
            CreatedAt(m, m', id, room) && Active(m') == Active(m) + [Num(id)]
          else m' == m)
  {
    var j := Snapshot(NewRoom(BoardSize, NextId(m), player1, player2));
    CreateRoomShape(m, player1, player2, f);
    CreateRoomWrites(m, player1, player2, f);
    NewRecord(NextId(m), player1, player2);
    CreatedKeeps(m, CreateRoom(m, player1, player2, f).0, NextId(m), j);
    if !f.first && !f.second && Written(f) { CreateFrame(m, CreateRoom(m, player1, player2, f).0, NextId(m), j); }
  }

  lemma CreateRoomWrites(m: Values, player1: int, player2: int, f: Faults)
    requires Typed(m)
    ensures var (m', a) := CreateRoom(m, player1, player2, f);
      && (a.status == Ok <==> !f.first && !f.second && Seen(f))
      && (if !f.first && !f.second && Written(f)
          then Creates(m, m', NextId(m), Snapshot(NewRoom(BoardSize, NextId(m), player1, player2))) else m' == m)
  {
    var id := NextId(m);
    PutThree(m, (RoomKey(id), Snapshot(NewRoom(BoardSize, id, player1, player2))), (ActiveKey, Arr(Active(m) + [Num(id)])),
             (NextKey, Num(id + 1)));
  }

  // ----------------------------------------------------------------------- closing

  /** The two records of a finished game. */
  predicate Closes(m: Values, m': Values, id: int, r: Room) {
    m' == m[RoomKey(id) := Snapshot(r)][ActiveKey := Arr(Without(Active(m), id))]
  }

  /** The list of active rooms is there and can be read. */
  predicate Listed(m: Values, f: Faults) { ActiveKey in m && m[ActiveKey].Arr? && !f.second }

  lemma CloseIs(m: Values, id: int, current: Json, r: Room, f: Faults)
    ensures var (m', a) := Close(m, id, current, r, f);
      && a == (if Listed(m, f) && Seen(f) then Answer(Ok, Snapshot(r)) else Answer(Unavailable, current))
      && (if Listed(m, f) && Written(f) then Closes(m, m', id, r) else m' == m)
  {
    PutThree(m, (RoomKey(id), Snapshot(r)), (ActiveKey, Arr(Without(Active(m), id))), ("", Null));
  }

  /** move and finish of a room that cannot be read, is not stored, or is no room, write nothing. */
  lemma UnreadRoom(m: Values, id: int, player: int, x: int, y: int, winner: int, f: Faults)
    requires f.first || RoomKey(id) !in m || FromSnapshot(m[RoomKey(id)]).None?
    ensures var a := Answer(if !f.first && RoomKey(id) !in m then RoomNotFound else Unavailable, Null);
      MoveRoom(m, id, player, x, y, f) == (m, a) && FinishRoom(m, id, winner, f) == (m, a)
  {
  }

  /** finish ends a game that goes on for the given winner and leaves the result of a finished one; it answers
      Ok with that room exactly when the active list can be read and its write is seen. */
  lemma FinishRoomIs(m: Values, id: int, winner: int, f: Faults, room: Room)
    requires RoomKey(id) in m && FromSnapshot(m[RoomKey(id)]) == Some(room) && !f.first
    ensures var (m', a) := FinishRoom(m, id, winner, f);
      var ended := if room.gameOver then room else room.(gameOver := true, winner := winner, reason := "opponent_left");
      && a == (if Listed(m, f) && Seen(f) then Answer(Ok, Snapshot(ended)) else Answer(Unavailable, m[RoomKey(id)]))
      && (if Listed(m, f) && Written(f) then Closes(m, m', id, ended) else m' == m)
  {
    CloseIs(m, id, m[RoomKey(id)], if room.gameOver then room else Forfeit(room, winner), f);
  }

  /** move refuses, with the reason of the room and without writing, exactly the moves the room refuses. */
  lemma MoveRoomIs(m: Values, id: int, player: int, x: int, y: int, f: Faults, room: Room)
    requires RoomKey(id) in m && FromSnapshot(m[RoomKey(id)]) == Some(room) && !f.first
    ensures var (m', a) := MoveRoom(m, id, player, x, y, f);
      && (a == Answer(GameOver, m[RoomKey(id)]) <==> room.gameOver)
      && (a == Answer(NotYourTurn, m[RoomKey(id)]) <==> !room.gameOver && player != room.currentTurn)
      && (a == Answer(InvalidMove, m[RoomKey(id)]) <==>
          !room.gameOver && player == room.currentTurn && !Stone(room.board, x, y, Empty))
      && (a.status == Ok || a.status == Unavailable <==>
          !room.gameOver && player == room.currentTurn && Stone(room.board, x, y, Empty))
      && (a.status != Ok && a.status != Unavailable ==> m' == m)
  {
    MoveRoomShape(m, id, player, x, y, f, room);
    CloseIs(m, id, m[RoomKey(id)], Move(room, player, x, y).0, f);
  }

  /** An accepted move is written as the room it leads to, with the active list when the game is over. */
  lemma MoveRoomWrites(m: Values, id: int, player: int, x: int, y: int, f: Faults, room: Room)
    requires RoomKey(id) in m && FromSnapshot(m[RoomKey(id)]) == Some(room) && !f.first
    requires Move(room, player, x, y).1 == 0
    ensures var (m', a), r := MoveRoom(m, id, player, x, y, f), Move(room, player, x, y).0;
      var open := !r.gameOver || Listed(m, f);
      && a == (if open && Seen(f) then Answer(Ok, Snapshot(r)) else Answer(Unavailable, m[RoomKey(id)]))
      && (if open && Written(f) then (if r.gameOver then Closes(m, m', id, r) else m' == m[RoomKey(id) := Snapshot(r)]) else m' == m)
  {
    var r := Move(room, player, x, y).0;
    MoveRoomShape(m, id, player, x, y, f, room);
    CloseIs(m, id, m[RoomKey(id)], r, f);
    PutThree(m, (RoomKey(id), Snapshot(r)), ("", Null), ("", Null));
  }

  /** The text of the keys. */
  lemma KeysAre()
    ensures RoomKey(0) == "gomoku:room:0" && RoomKey(12) == "gomoku:room:12" && RoomKey(-3) == "gomoku:room:-3"
    ensures ActiveKey == "gomoku:active-room-ids" && NextKey == "gomoku:next-room-id" && EnvelopeKey == "gomoku:state"
  {
    assert Digits(12) == "12" && Digits(0) == "0" && Digits(3) == "3";
  }
}
