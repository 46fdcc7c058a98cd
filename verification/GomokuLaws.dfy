/**
  The rules of the game, written out on the board: what five aligned stones are,
  which moves are refused and with which code, when a game ends and for whom
  (HTTPServer/WebApps/GomokuServer/src/GameRoom.cpp).
 */
module GomokuLaws {
  import opened Common
  import opened JsonValue
  import opened Gomoku
  import opened GomokuRoom

  // ------------------------------------------------------------------------ lines

  /** The place (x, y) lies on the board and holds `c`. */
  predicate At(b: Board, x: int, y: int, c: Cell) { 0 <= x < |b| && 0 <= y < |b[x]| && b[x][y] == c }

  /** Five stones of `c` at (x, y) and the next four places in steps of (dx, dy). */
  predicate Line(b: Board, x: int, y: int, dx: int, dy: int, c: Cell) {
    && At(b, x, y, c) && At(b, x + dx, y + dy, c) && At(b, x + 2 * dx, y + 2 * dy, c)
    && At(b, x + 3 * dx, y + 3 * dy, c) && At(b, x + 4 * dx, y + 4 * dy, c)
  }

  /** Five stones of `c` that start at (x, y) and run along either side or along either diagonal. */
  predicate FiveFromHere(b: Board, x: int, y: int, c: Cell) {
    Line(b, x, y, 1, 0, c) || Line(b, x, y, 0, 1, c) || Line(b, x, y, 1, 1, c) || Line(b, x, y, 1, -1, c)
  }

  lemma DirectionsAre(b: Board, x: int, y: int, c: Cell)
    ensures FiveFromHere(b, x, y, c) <==>
      FiveAt(b, x, y, 0, c) || FiveAt(b, x, y, 1, c) || FiveAt(b, x, y, 2, c) || FiveAt(b, x, y, 3, c)
  {
    DirectionIs(b, x, y, 0, 1, 0, c);
    DirectionIs(b, x, y, 1, 0, 1, c);
    DirectionIs(b, x, y, 2, 1, 1, c);
    DirectionIs(b, x, y, 3, 1, -1, c);
  }

  lemma StoneIs(b: Board, x: int, y: int, d: nat, dx: int, dy: int, i: nat, u: int, v: int, c: Cell)
    requires d < 4 && dx == Dx(d) && dy == Dy(d)
    requires u == Along(x, dx, i) && v == Along(y, dy, i)
    ensures StoneAlong(b, x, y, d, i, c) <==> At(b, u, v, c)
  {
  }

  lemma DirectionIs(b: Board, x: int, y: int, d: nat, dx: int, dy: int, c: Cell)
    requires d < 4 && dx == Dx(d) && dy == Dy(d)
    ensures Line(b, x, y, dx, dy, c) <==> FiveAt(b, x, y, d, c)
  {
    FiveStones(b, x, y, d, c);
    StoneIs(b, x, y, d, dx, dy, 0, x, y, c);
    StoneIs(b, x, y, d, dx, dy, 1, x + dx, y + dy, c);
    StoneIs(b, x, y, d, dx, dy, 2, x + 2 * dx, y + 2 * dy, c);
    StoneIs(b, x, y, d, dx, dy, 3, x + 3 * dx, y + 3 * dy, c);
    StoneIs(b, x, y, d, dx, dy, 4, x + 4 * dx, y + 4 * dy, c);
  }

  lemma FiveStones(b: Board, x: int, y: int, d: nat, c: Cell)
    requires d < 4
    ensures FiveAt(b, x, y, d, c) <==>
      StoneAlong(b, x, y, d, 0, c) && StoneAlong(b, x, y, d, 1, c) && StoneAlong(b, x, y, d, 2, c) &&
      StoneAlong(b, x, y, d, 3, c) && StoneAlong(b, x, y, d, 4, c)
  {
  }

  /** A board has five aligned stones exactly when they are on it in one of the four directions. */
  lemma FiveMeans(b: Board, c: Cell)
    ensures HasFive(b, c) <==> exists x: int, y: int :: FiveFromHere(b, x, y, c)
  {
    if HasFive(b, c) {
      var x: int, y: int, d: nat :| FiveAt(b, x, y, d, c);
      DirectionsAre(b, x, y, c);
    }
    if x: int, y: int :| FiveFromHere(b, x, y, c) { DirectionsAre(b, x, y, c); }
  }

  // ------------------------------------------------------------------------- moves

  lemma RoomStarts(n: nat, roomId: int, player1: int, player2: int)
    ensures var r := NewRoom(n, roomId, player1, player2);
      && r.roomId == roomId && r.player1 == player1 && r.player2 == player2 && r.currentTurn == player1
      && r.moveCount == 0 && !r.gameOver && r.winner == 0 && r.reason == "" && r.lastMove == (-1, -1)
      && |r.board| == n && forall x | 0 <= x < n :: |r.board[x]| == n && forall y | 0 <= y < n :: r.board[x][y] == Empty
  {
  }

  /** -2 when the game is over, -3 when it is the other's turn, -1 when the place is taken or outside, and
      0 for every other move. */
  lemma MoveCodes(r: Room, player: int, x: int, y: int)
    ensures var code := Move(r, player, x, y).1;
      && (code == -2 <==> r.gameOver)
      && (code == -3 <==> !r.gameOver && player != r.currentTurn)
      && (code == -1 <==> !r.gameOver && player == r.currentTurn && !At(r.board, x, y, Empty))
      && (code == 0 <==> !r.gameOver && player == r.currentTurn && At(r.board, x, y, Empty))
  {
  }

  /** The first player plays black, the second white. */
  lemma MovePlaces(r: Room, player: int, x: int, y: int)
    requires Move(r, player, x, y).1 == 0
    ensures var r' := Move(r, player, x, y).0;
      && At(r'.board, x, y, if player == r.player1 then Black else White)
      && r'.moveCount == r.moveCount + 1 && r'.lastMove == (x, y)
      && r'.roomId == r.roomId && r'.player1 == r.player1 && r'.player2 == r.player2
  {
  }

  ghost predicate Full(b: Board) { forall x, y | 0 <= x < |b| && 0 <= y < |b[x]| :: b[x][y] != Empty }

  lemma {:induction false} RowWithout(row: seq<Cell>, c: Cell, y: nat)
    requires y < |row| && row[y] == c
    ensures CountRow(row, c) > 0
  {
    if y > 0 { RowWithout(row[1..], c, y - 1); }
  }

  lemma {:induction false} BoardWithout(b: seq<seq<Cell>>, c: Cell, x: nat, y: nat)
    requires x < |b| && y < |b[x]| && b[x][y] == c
    ensures Count(b, c) > 0
  {
    if x > 0 { BoardWithout(b[1..], c, x - 1, y); } else { RowWithout(b[0], c, y); }
  }

  lemma FullCounts(b: Board)
    requires Square(b)
    ensures Full(b) <==> Count(b, Black) + Count(b, White) >= |b| * |b|
  {
    FullBoard(b);
    if Full(b) { CountNone(b, Empty); }
    if x, y :| 0 <= x < |b| && 0 <= y < |b[x]| && b[x][y] == Empty { BoardWithout(b, Empty, x, y); }
  }

  /** After an accepted move the game is won by the mover exactly when five stones are aligned, drawn exactly
      when none are and the board is full, and goes on with the other player's turn exactly otherwise. */
  lemma MoveEnds(r: Room, player: int, x: int, y: int)
    requires Fair(r) && Move(r, player, x, y).1 == 0
    ensures var r' := Move(r, player, x, y).0;
      var five := HasFive(r'.board, Black) || HasFive(r'.board, White);
      && (if five then r'.gameOver && r'.winner == player && r'.reason == "five_in_row" && r'.currentTurn == player
          else if Full(r'.board) then r'.gameOver && r'.winner == -1 && r'.reason == "draw" && r'.currentTurn == player
          else !r'.gameOver && r'.winner == 0 && r'.reason == r.reason &&
               r'.currentTurn == if player == r.player1 then r.player2 else r.player1)
  {
    var c := Colour(r, player);
    PlaceFives(r.board, x, y, c, if c == Black then White else Black);
    PlaceCounts(r.board, x, y, c);
    FullCounts(Place(r.board, x, y, c));
  }

  /** A forfeit ends the game for the given winner and touches nothing else. */
  lemma ForfeitEnds(r: Room, winner: int)
    ensures var r' := Forfeit(r, winner);
      && r'.gameOver && r'.winner == winner && r'.reason == "opponent_left"
      && r'.roomId == r.roomId && r'.player1 == r.player1 && r'.player2 == r.player2 && r'.currentTurn == r.currentTurn
      && r'.moveCount == r.moveCount && r'.lastMove == r.lastMove && r'.board == r.board
  {
  }

  // --------------------------------------------------------------------- snapshots

  /** The fields of a snapshot document, by name. */
  lemma SnapshotFields(r: Room)
    ensures var j := Snapshot(r);
      && IsNum(j, "roomId") && Field(j, "roomId").n == r.roomId
      && IsNum(j, "player1") && Field(j, "player1").n == r.player1
      && IsNum(j, "player2") && Field(j, "player2").n == r.player2
      && IsNum(j, "currentTurn") && Field(j, "currentTurn").n == r.currentTurn
      && IsNum(j, "moveCount") && Field(j, "moveCount").n == r.moveCount
      && Has(j, "gameOver") && Field(j, "gameOver") == Bool(r.gameOver)
      && IsNum(j, "winner") && Field(j, "winner").n == r.winner
      && Has(j, "winnerReason") && Field(j, "winnerReason") == Str(r.reason)
      && Has(j, "lastMove") && Field(j, "lastMove") == Obj(map["x" := Num(r.lastMove.0), "y" := Num(r.lastMove.1)])
      && Has(j, "board") && Field(j, "board").Arr? && |Field(j, "board").elems| == |r.board|
  {
    BoardLength(r.board);
  }

  lemma {:induction false} BoardLength(b: Board)
    ensures |BoardJson(b)| == |b|
  {
    if b != [] { BoardLength(b[1..]); }
  }

  /** The board of a snapshot names every place by its stone. */
  lemma SnapshotPlaces(r: Room, x: nat, y: nat)
    requires x < |r.board| && y < |r.board[x]|
    ensures x < |BoardJson(r.board)| && BoardJson(r.board)[x].Arr? && y < |BoardJson(r.board)[x].elems|
    ensures BoardJson(r.board)[x].elems[y] == Str(
      match r.board[x][y]
      case Empty => "empty"
      case Black => "black"
      case White => "white")
  {
    RowAt(r.board, x);
    CellAt(r.board[x], y);
  }

  lemma {:induction false} RowAt(b: Board, x: nat)
    requires x < |b|
    ensures x < |BoardJson(b)| && BoardJson(b)[x] == Arr(RowJson(b[x]))
  {
    if x > 0 { RowAt(b[1..], x - 1); }
  }

  lemma {:induction false} CellAt(row: seq<Cell>, y: nat)
    requires y < |row|
    ensures y < |RowJson(row)| && RowJson(row)[y] == Str(CellName(row[y]))
  {
    if y > 0 { CellAt(row[1..], y - 1); }
  }
}
