/**
  The PVP game service as an object over the envelope store, step by step
  (HTTPServer/WebApps/GomokuServer/src/PvpGameService.cpp).
 */
module PvpObject {
  import opened Common
  import opened JsonValue
  import G = Gomoku
  import opened GomokuRoom
  import opened PvpStore
  import S = PvpService

  class PvpGameService {
    const store: RaftGameStateStore

    constructor (s: RaftGameStateStore)
      ensures store == s
    {
      store := s;
    }

    ghost predicate Readable()
      reads store
    {
      Contents(store.Envelope()).Some?
    }

    ghost function Values(): Values
      requires Readable()
      reads store
    {
      Contents(store.Envelope()).value
    }

    ghost predicate Valid()
      reads store
    {
      Readable() && S.Consistent(Values())
    }

    method CreateRoom(player1: int, player2: int, f: S.Faults) returns (answer: S.Answer)
      requires Valid()
      modifies store
      ensures Valid() && (Values(), answer) == S.CreateRoom(old(Values()), player1, player2, f)
    {
      S.CreateRoomKeeps(Values(), player1, player2, f);
      var next := store.LoadKey(NextKey, f.first);
      if next.LoadUnavailable? { return S.Answer(S.Unavailable, Null); }
      var id := if next.Loaded? then next.value.n else 1;
      var room := new GameRoom(S.BoardSize, id, player1, player2);
      var snapshot := Snapshot(room.State());
      var active := store.LoadKey(ActiveKey, f.second);
      if active.LoadUnavailable? { return S.Answer(S.Unavailable, Null); }
      if active.Loaded? && !active.value.Arr? { return S.Answer(S.Unavailable, Null); }
      var ids := if active.Loaded? then active.value.elems else [];
      ids := ids + [Num(id)];
      var ok := store.Replace([(RoomKey(id), snapshot), (ActiveKey, Arr(ids)), (NextKey, Num(id + 1))], f.read, f.put);
      if !ok { return S.Answer(S.Unavailable, Null); }
      return S.Answer(S.Ok, snapshot);
    }

    method LoadLocked(id: int, down: bool) returns (answer: S.Answer)
      requires Readable()
      ensures answer == S.LoadRoom(Values(), id, down)
    {
      var stored := store.LoadKey(RoomKey(id), down);
      if stored.NotFound? { return S.Answer(S.RoomNotFound, Null); }
      if !stored.Loaded? { return S.Answer(S.Unavailable, Null); }
      return S.Answer(S.Ok, stored.value);
    }

    /** The erase-remove idiom as the scan it is. */
    method EraseId(elems: seq<Json>, id: int) returns (rest: seq<Json>)
      ensures rest == S.Without(elems, id)
    {
      rest := [];
      for k := 0 to |elems|
        invariant rest == S.Without(elems[..k], id)
      {
        assert elems[..k + 1][..k] == elems[..k];
        if elems[k] != Num(id) { rest := rest + [elems[k]]; }
      }
      assert elems[..|elems|] == elems;
    }

    method CloseRoom(id: int, current: Json, replacement: G.Room, f: S.Faults) returns (answer: S.Answer)
      requires Readable()
      modifies store
      ensures Readable() && (Values(), answer) == S.Close(old(Values()), id, current, replacement, f)
    {
      var active := store.LoadKey(ActiveKey, f.second);
      if !active.Loaded? || !active.value.Arr? { return S.Answer(S.Unavailable, current); }
      var ids := EraseId(active.value.elems, id);
      var ok := store.Replace([(RoomKey(id), Snapshot(replacement)), (ActiveKey, Arr(ids))], f.read, f.put);
      if !ok { return S.Answer(S.Unavailable, current); }
      return S.Answer(S.Ok, Snapshot(replacement));
    }

    method Move(id: int, player: int, x: int, y: int, f: S.Faults) returns (answer: S.Answer)
      requires Valid()
      modifies store
      ensures Valid() && (Values(), answer) == S.MoveRoom(old(Values()), id, player, x, y, f)
    {
      S.MoveRoomKeeps(Values(), id, player, x, y, f);
      answer := LoadLocked(id, f.first);
      if answer.status != S.Ok { return; }
      var current := answer.snapshot;
      ghost var r0 := S.RecordIs(current, id);
      var restored := FromSnapshot(current);
      S.MoveRoomShape(Values(), id, player, x, y, f, restored.value);
      var room := new GameRoom.Restore(restored.value);
      var code := room.MakeMove(player, x, y);
      if code == -1 { return S.Answer(S.InvalidMove, current); }
      if code == -2 { return S.Answer(S.GameOver, current); }
      if code == -3 { return S.Answer(S.NotYourTurn, current); }
      answer := WriteMove(id, current, room.State(), f);
    }

    method WriteMove(id: int, current: Json, replacement: G.Room, f: S.Faults) returns (answer: S.Answer)
      requires Readable()
      modifies store
      ensures Readable() && (Values(), answer) == S.MovedTo(old(Values()), id, current, replacement, f)
    {
      if !replacement.gameOver {
        var ok := store.Replace([(RoomKey(id), Snapshot(replacement))], f.read, f.put);
        if !ok { return S.Answer(S.Unavailable, current); }
        return S.Answer(S.Ok, Snapshot(replacement));
      }
      answer := CloseRoom(id, current, replacement, f);
    }

    method Finish(id: int, winner: int, f: S.Faults) returns (answer: S.Answer)
      requires Valid()
      modifies store
      ensures Valid() && (Values(), answer) == S.FinishRoom(old(Values()), id, winner, f)
    {
      S.FinishRoomKeeps(Values(), id, winner, f);
      answer := LoadLocked(id, f.first);
      if answer.status != S.Ok { return; }
      var current := answer.snapshot;
      ghost var r0 := S.RecordIs(current, id);
      var room := new GameRoom.Restore(FromSnapshot(current).value);
      if !room.gameOver { room.ForfeitTo(winner); }
      answer := CloseRoom(id, current, room.State(), f);
    }

    method RecoverActiveRooms(activeDown: bool, down: nat -> bool) returns (rooms: seq<Json>)
      requires Valid()
      ensures activeDown ==> rooms == []
      ensures !activeDown ==> rooms == S.Recover(Values(), S.Active(Values()), down)
    {
      var active := store.LoadKey(ActiveKey, activeDown);
      if !active.Loaded? || !active.value.Arr? { return []; }
      rooms := [];
      var elems := active.value.elems;
      for k := 0 to |elems|
        invariant rooms == S.Recover(Values(), elems[..k], down)
      {
        S.RecoverGrows(Values(), elems, k, down);
        var current := LoadLocked(elems[k].n, down(k));
        if current.status == S.Ok && !S.IsOver(current.snapshot) { rooms := rooms + [current.snapshot]; }
      }
      assert elems[..|elems|] == elems;
    }
  }
}
