/**
  One game of five in a row between two players
  (HTTPServer/WebApps/GomokuServer/src/GameRoom.cpp), for any board size.
 */
module Gomoku {

  datatype Cell = Empty | Black | White

  type Board = seq<seq<Cell>>

  datatype Room = Room(
    roomId: int, player1: int, player2: int, currentTurn: int, moveCount: int,
    gameOver: bool, winner: int, reason: string, lastMove: (int, int), board: Board)

  ghost predicate Square(b: Board) { forall x | 0 <= x < |b| :: |b[x]| == |b| }

  /** isInBoard, on a board of its own size. */
  predicate InBoard(b: Board, x: int, y: int) { 0 <= x < |b| && 0 <= y < |b[x]| }

  predicate Stone(b: Board, x: int, y: int, c: Cell) { InBoard(b, x, y) && b[x][y] == c }

  // --------------------------------------------------------------------- lines

  function Dx(d: nat): int { if d == 1 then 0 else 1 }

  function Dy(d: nat): int { if d == 0 then 0 else if d == 3 then -1 else 1 }

  /** x + step * i for a step of -1, 0 or 1. */
  function Along(x: int, step: int, i: int): int { if step == 0 then x else if step > 0 then x + i else x - i }

  lemma AlongIs(x: int, step: int, i: int)
    requires -1 <= step <= 1
    ensures Along(x, step, i) == x + step * i
  {
    if step == 1 { assert step * i == i; } else if step == -1 { assert step * i == -i; }
  }

  lemma AlongTwice(x: int, step: int, i: int, j: int)
    ensures Along(Along(x, step, i), step, j) == Along(x, step, i + j)
  {
  }

  predicate StoneAlong(b: Board, x: int, y: int, d: nat, i: int, c: Cell) {
    Stone(b, Along(x, Dx(d), i), Along(y, Dy(d), i), c)
  }

  /** Stones of `c` at offsets from..to along direction `d` seen from (x, y). */
  ghost predicate Row(b: Board, x: int, y: int, d: nat, from: int, to: int, c: Cell) {
    forall i | from <= i <= to :: StoneAlong(b, x, y, d, i, c)
  }

  /** Five aligned stones of `c` that start at (x, y). */
  ghost predicate FiveAt(b: Board, x: int, y: int, d: nat, c: Cell) { d < 4 && Row(b, x, y, d, 0, 4, c) }

  /** Five aligned stones of `c` somewhere on the board. */
  ghost predicate HasFive(b: Board, c: Cell) { exists x: int, y: int, d: nat :: FiveAt(b, x, y, d, c) }

  ghost predicate FiveFrom(b: Board, x: int, y: int, d: nat, s: int, c: Cell) {
    d < 4 && -4 <= s <= 0 && Row(b, x, y, d, s, s + 4, c)
  }

  /** Five aligned stones of `c` with (x, y) at one of their places. */
  ghost predicate FiveThrough(b: Board, x: int, y: int, c: Cell) {
    exists d: nat, s: int :: FiveFrom(b, x, y, d, s, c)
  }

  lemma RowMoved(b: Board, x: int, y: int, d: nat, s: int, c: Cell)
    ensures Row(b, Along(x, Dx(d), s), Along(y, Dy(d), s), d, 0, 4, c) <==> Row(b, x, y, d, s, s + 4, c)
  {
    var x', y' := Along(x, Dx(d), s), Along(y, Dy(d), s);
    forall i: int
      ensures StoneAlong(b, x', y', d, i, c) <==> StoneAlong(b, x, y, d, s + i, c)
    {
      AlongTwice(x, Dx(d), s, i);
      AlongTwice(y, Dy(d), s, i);
    }
    if Row(b, x', y', d, 0, 4, c) {
      forall i | s <= i <= s + 4 ensures StoneAlong(b, x, y, d, i, c) { assert StoneAlong(b, x', y', d, i - s, c); }
    }
  }

  lemma ThroughIsSomewhere(b: Board, x: int, y: int, c: Cell)
    requires FiveThrough(b, x, y, c)
    ensures HasFive(b, c)
  {
    var d: nat, s: int :| FiveFrom(b, x, y, d, s, c);
    RowMoved(b, x, y, d, s, c);
    assert FiveAt(b, Along(x, Dx(d), s), Along(y, Dy(d), s), d, c);
  }

  // ---------------------------------------------------------------- placing a stone

  function Place(b: Board, x: int, y: int, c: Cell): Board
    requires InBoard(b, x, y)
  {
    b[x := b[x][y := c]]
  }

  lemma PlaceKeeps(b: Board, x: int, y: int, c: Cell, u: int, v: int, k: Cell)
    requires InBoard(b, x, y)
    ensures (u, v) != (x, y) ==> (Stone(Place(b, x, y, c), u, v, k) <==> Stone(b, u, v, k))
    ensures Stone(Place(b, x, y, c), x, y, k) <==> k == c
  {
  }

  /** A five that appears with a stone goes through it and has its colour. */
  lemma NewFiveThrough(b: Board, x: int, y: int, c: Cell, k: Cell)
    requires InBoard(b, x, y) && !HasFive(b, k) && HasFive(Place(b, x, y, c), k)
    ensures k == c && FiveThrough(Place(b, x, y, c), x, y, c)
  {
    var b' := Place(b, x, y, c);
    var u: int, v: int, d: nat :| FiveAt(b', u, v, d, k);
    assert !FiveAt(b, u, v, d, k);
    var i :| 0 <= i <= 4 && !StoneAlong(b, u, v, d, i, k);
    assert StoneAlong(b', u, v, d, i, k);
    PlaceKeeps(b, x, y, c, Along(u, Dx(d), i), Along(v, Dy(d), i), k);
    AlongTwice(u, Dx(d), i, -i);
    AlongTwice(v, Dy(d), i, -i);
    RowMoved(b', x, y, d, -i, c);
    assert FiveFrom(b', x, y, d, -i, c);
  }

  // ------------------------------------------------------------------- counting

  function CountRow(row: seq<Cell>, c: Cell): nat {
    if row == [] then 0 else CountRow(row[1..], c) + if row[0] == c then 1 else 0
  }

  function Count(b: seq<seq<Cell>>, c: Cell): nat {
    if b == [] then 0 else CountRow(b[0], c) + Count(b[1..], c)
  }

  lemma {:induction false} CountRowSet(row: seq<Cell>, y: nat, c: Cell, k: Cell)
    requires y < |row|
    ensures CountRow(row[y := c], k) ==
      CountRow(row, k) - (if row[y] == k then 1 else 0) + (if c == k then 1 else 0)
  {
    if y > 0 {
      assert row[y := c][1..] == row[1..][y - 1 := c];
      CountRowSet(row[1..], y - 1, c, k);
    } else {
      assert row[0 := c][1..] == row[1..];
    }
  }

  lemma {:induction false} CountSet(b: seq<seq<Cell>>, x: nat, row: seq<Cell>, k: Cell)
    requires x < |b|
    ensures Count(b[x := row], k) == Count(b, k) - CountRow(b[x], k) + CountRow(row, k)
  {
    if x > 0 {
      assert b[x := row][1..] == b[1..][x - 1 := row];
      CountSet(b[1..], x - 1, row, k);
    } else {
      assert b[0 := row][1..] == b[1..];
    }
  }

  lemma CountPlace(b: Board, x: int, y: int, c: Cell, k: Cell)
    requires InBoard(b, x, y)
    ensures Count(Place(b, x, y, c), k) == Count(b, k) - (if b[x][y] == k then 1 else 0) + (if c == k then 1 else 0)
  {
    CountRowSet(b[x], y, c, k);
    CountSet(b, x, b[x][y := c], k);
  }

  lemma {:induction false} CountRowTotal(row: seq<Cell>)
    ensures CountRow(row, Empty) + CountRow(row, Black) + CountRow(row, White) == |row|
  {
    if row != [] { CountRowTotal(row[1..]); }
  }

  lemma {:induction false} CountTotal(b: seq<seq<Cell>>, n: nat)
    requires forall x | 0 <= x < |b| :: |b[x]| == n
    ensures Count(b, Empty) + Count(b, Black) + Count(b, White) == |b| * n
  {
    if b != [] {
      CountRowTotal(b[0]);
      CountTotal(b[1..], n);
    }
  }

  lemma {:induction false} CountNone(b: seq<seq<Cell>>, c: Cell)
    requires forall x, y | 0 <= x < |b| && 0 <= y < |b[x]| :: b[x][y] != c
    ensures Count(b, c) == 0
  {
    if b != [] {
      CountRowNone(b[0], c);
      forall x, y | 0 <= x < |b[1..]| && 0 <= y < |b[1..][x]| ensures b[1..][x][y] != c { assert b[1..][x] == b[x + 1]; }
      CountNone(b[1..], c);
    }
  }

  lemma {:induction false} CountRowNone(row: seq<Cell>, c: Cell)
    requires forall y | 0 <= y < |row| :: row[y] != c
    ensures CountRow(row, c) == 0
  {
    if row != [] { CountRowNone(row[1..], c); }
  }

  // --------------------------------------------------------------------- rooms

  function EmptyBoard(n: nat): Board { seq(n, _ => seq(n, _ => Empty)) }

  function NewRoom(n: nat, roomId: int, player1: int, player2: int): Room {
    Room(roomId, player1, player2, player1, 0, false, 0, "", (-1, -1), EmptyBoard(n))
  }

  function Colour(r: Room, player: int): Cell { if player == r.player1 then Black else White }

  function Other(r: Room): int { if r.currentTurn == r.player1 then r.player2 else r.player1 }

  /** makeMove: the new room and the code returned. */
  ghost function Move(r: Room, player: int, x: int, y: int): (Room, int) {
    if r.gameOver then (r, -2)
    else if player != r.currentTurn then (r, -3)
    else if !Stone(r.board, x, y, Empty) then (r, -1)
    else
      var c := Colour(r, player);
      var r1 := r.(board := Place(r.board, x, y, c), moveCount := r.moveCount + 1, lastMove := (x, y));
      if FiveThrough(r1.board, x, y, c) then (r1.(gameOver := true, winner := player, reason := "five_in_row"), 0)
      else if r1.moveCount >= |r.board| * |r.board| then (r1.(gameOver := true, winner := -1, reason := "draw"), 0)
      else (r1.(currentTurn := Other(r)), 0)
  }

  function Forfeit(r: Room, winner: int): Room { r.(gameOver := true, winner := winner, reason := "opponent_left") }

  function Lead(r: Room): int { Count(r.board, Black) - Count(r.board, White) }

  /** What holds of every room two distinct players can bring about. */
  ghost predicate Fair(r: Room) {
    && Square(r.board) && r.player1 != r.player2 && (r.currentTurn == r.player1 || r.currentTurn == r.player2)
    && r.moveCount == Count(r.board, Black) + Count(r.board, White)
    && (!r.gameOver ==>
        && r.winner == 0 && !HasFive(r.board, Black) && !HasFive(r.board, White)
        && Lead(r) == if r.currentTurn == r.player1 then 0 else 1)
    && (r.gameOver && r.reason == "five_in_row" ==>
        && r.winner == r.currentTurn && HasFive(r.board, Colour(r, r.winner)) && !HasFive(r.board, Colour(r, Other(r)))
        && Lead(r) == if r.currentTurn == r.player1 then 1 else 0)
    && (r.gameOver && r.reason == "draw" ==>
        r.winner == -1 && !HasFive(r.board, Black) && !HasFive(r.board, White) && Count(r.board, Empty) == 0)
    && 0 <= Lead(r) <= 1
  }

  lemma NewRoomFair(n: nat, roomId: int, player1: int, player2: int)
    requires player1 != player2
    ensures Fair(NewRoom(n, roomId, player1, player2))
  {
    CountNone(EmptyBoard(n), Black);
    CountNone(EmptyBoard(n), White);
    NoFiveOnEmpty(n, Black);
    NoFiveOnEmpty(n, White);
  }

  lemma NoFiveOnEmpty(n: nat, c: Cell)
    requires c != Empty
    ensures !HasFive(EmptyBoard(n), c)
  {
    forall x: int, y: int, d: nat ensures !FiveAt(EmptyBoard(n), x, y, d, c) { assert !StoneAlong(EmptyBoard(n), x, y, d, 0, c); }
  }

  lemma ForfeitFair(r: Room, winner: int)
    requires Fair(r)
    ensures Fair(Forfeit(r, winner))
  {
  }

  lemma PlaceNoOther(b: Board, x: int, y: int, c: Cell, k: Cell)
    requires InBoard(b, x, y) && !HasFive(b, k) && (k == c ==> !FiveThrough(Place(b, x, y, c), x, y, c))
    ensures !HasFive(Place(b, x, y, c), k)
  {
    if HasFive(Place(b, x, y, c), k) { NewFiveThrough(b, x, y, c, k); }
  }

  lemma FullBoard(b: Board)
    requires Square(b)
    ensures Count(b, Empty) + Count(b, Black) + Count(b, White) == |b| * |b|
  {
    CountTotal(b, |b|);
  }

  lemma PlaceFives(b: Board, x: int, y: int, c: Cell, k: Cell)
    requires InBoard(b, x, y) && !HasFive(b, c) && !HasFive(b, k) && k != c
    ensures HasFive(Place(b, x, y, c), c) <==> FiveThrough(Place(b, x, y, c), x, y, c)
    ensures !HasFive(Place(b, x, y, c), k)
  {
    if FiveThrough(Place(b, x, y, c), x, y, c) { ThroughIsSomewhere(Place(b, x, y, c), x, y, c); } else { PlaceNoOther(b, x, y, c, c); }
    PlaceNoOther(b, x, y, c, k);
  }

  lemma PlaceCounts(b: Board, x: int, y: int, c: Cell)
    requires Square(b) && Stone(b, x, y, Empty) && c != Empty
    ensures Square(Place(b, x, y, c))
    ensures Count(Place(b, x, y, c), Black) == Count(b, Black) + if c == Black then 1 else 0
    ensures Count(Place(b, x, y, c), White) == Count(b, White) + if c == White then 1 else 0
  {
    CountPlace(b, x, y, c, Black);
    CountPlace(b, x, y, c, White);
  }

  /** Moves keep rooms fair: a stone for every move, turns that alternate, no five
      on the board of an unfinished game. */
  lemma MoveFair(r: Room, player: int, x: int, y: int)
    requires Fair(r)
    ensures Fair(Move(r, player, x, y).0)
  {
    if !r.gameOver && player == r.currentTurn && Stone(r.board, x, y, Empty) {
      var c := Colour(r, player);
      PlaceFives(r.board, x, y, c, if c == Black then White else Black);
      PlaceCounts(r.board, x, y, c);
      FullBoard(Place(r.board, x, y, c));
    }
  }

  /** The win check refines a scan of the whole board: a move that is accepted ends
      the game with five_in_row exactly when the new board holds five aligned stones
      of either colour anywhere. */
  lemma WinIsFullScan(r: Room, player: int, x: int, y: int)
    requires Fair(r) && Move(r, player, x, y).1 == 0
    ensures var r' := Move(r, player, x, y).0;
      (r'.gameOver && r'.reason == "five_in_row" && r'.winner == player) <==> HasFive(r'.board, Black) || HasFive(r'.board, White)
  {
    var c := Colour(r, player);
    PlaceFives(r.board, x, y, c, if c == Black then White else Black);
  }

  /** A move changes the board exactly by one stone of the mover, or not at all. */
  lemma MoveChanges(r: Room, player: int, x: int, y: int, u: int, v: int, k: Cell)
    ensures var (r', code) := Move(r, player, x, y);
      && (code != 0 ==> r' == r)
      && (code == 0 ==> Stone(r.board, x, y, Empty) && (Stone(r'.board, x, y, k) <==> k == Colour(r, player)))
      && ((u, v) != (x, y) ==> (Stone(r'.board, u, v, k) <==> Stone(r.board, u, v, k)))
  {
    if Stone(r.board, x, y, Empty) { PlaceKeeps(r.board, x, y, Colour(r, player), u, v, k); }
  }

  // ------------------------------------------------------------ whole games

  datatype Event = MoveBy(player: int, x: int, y: int) | Left(winner: int)

  ghost function Play(r: Room, events: seq<Event>): Room
  {
    if events == [] then r
    else
      var before := Play(r, events[..|events| - 1]);
      match events[|events| - 1]
      case MoveBy(player, x, y) => Move(before, player, x, y).0
      case Left(winner) => Forfeit(before, winner)
  }

  /** Every room reached from a new one is fair. */
  lemma {:induction false} PlayFair(n: nat, roomId: int, player1: int, player2: int, events: seq<Event>)
    requires player1 != player2
    ensures Fair(Play(NewRoom(n, roomId, player1, player2), events))
  {
    var r := NewRoom(n, roomId, player1, player2);
    if events == [] {
      NewRoomFair(n, roomId, player1, player2);
    } else {
      var before := Play(r, events[..|events| - 1]);
      PlayFair(n, roomId, player1, player2, events[..|events| - 1]);
      match events[|events| - 1]
      case MoveBy(player, x, y) => MoveFair(before, player, x, y);
      case Left(winner) => ForfeitFair(before, winner);
    }
  }
}
