/**
  The game room as an object, with the loops of its win check, and its JSON form
  (HTTPServer/WebApps/GomokuServer/src/GameRoom.cpp).
 */
module GomokuRoom {
  import opened Common
  import opened Gomoku
  import opened JsonValue

  // ------------------------------------------------------------- the win check

  /** `k` of the next four places along (sx, sy) continue the row without a gap. */
  ghost predicate RunIs(b: Board, x: int, y: int, sx: int, sy: int, c: Cell, k: int) {
    && 0 <= k <= 4
    && (forall i | 1 <= i <= k :: Stone(b, Along(x, sx, i), Along(y, sy, i), c))
    && (k < 4 ==> !Stone(b, Along(x, sx, k + 1), Along(y, sy, k + 1), c))
  }

  ghost predicate Stones(b: Board, x: int, y: int, sx: int, sy: int, c: Cell, m: int) {
    forall i | 1 <= i <= m :: Stone(b, Along(x, sx, i), Along(y, sy, i), c)
  }

  lemma RunReaches(b: Board, x: int, y: int, sx: int, sy: int, c: Cell, k: int, m: int)
    requires RunIs(b, x, y, sx, sy, c, k) && 0 <= m <= 4
    ensures k >= m <==> Stones(b, x, y, sx, sy, c, m)
  {
    assert k < m && Stones(b, x, y, sx, sy, c, m) ==> Stone(b, Along(x, sx, k + 1), Along(y, sy, k + 1), c);
  }

  lemma Backwards(x: int, step: int, i: int)
    ensures Along(x, -step, i) == Along(x, step, -i)
  {
  }

  lemma BackStone(b: Board, x: int, y: int, d: nat, i: int, c: Cell)
    ensures Stone(b, Along(x, -Dx(d), i), Along(y, -Dy(d), i), c) <==> StoneAlong(b, x, y, d, -i, c)
  {
    Backwards(x, Dx(d), i);
    Backwards(y, Dy(d), i);
  }

  lemma RowGivesBack(b: Board, x: int, y: int, d: nat, s: int, sx: int, sy: int, c: Cell)
    requires Row(b, x, y, d, s, s + 4, c) && sx == -Dx(d) && sy == -Dy(d) && -4 <= s <= 0
    ensures Stones(b, x, y, sx, sy, c, -s)
  {
    forall i | 1 <= i <= -s ensures Stone(b, Along(x, sx, i), Along(y, sy, i), c) { BackStone(b, x, y, d, i, c); }
  }

  lemma RowGivesAhead(b: Board, x: int, y: int, d: nat, s: int, c: Cell)
    requires Row(b, x, y, d, s, s + 4, c) && -4 <= s <= 0
    ensures Stones(b, x, y, Dx(d), Dy(d), c, s + 4)
  {
    forall i | 1 <= i <= s + 4 ensures Stone(b, Along(x, Dx(d), i), Along(y, Dy(d), i), c) { assert StoneAlong(b, x, y, d, i, c); }
  }

  lemma RunsGiveRow(b: Board, x: int, y: int, d: nat, s: int, sx: int, sy: int, c: Cell)
    requires -4 <= s <= 0 && Stone(b, x, y, c) && sx == -Dx(d) && sy == -Dy(d)
    requires Stones(b, x, y, Dx(d), Dy(d), c, s + 4) && Stones(b, x, y, sx, sy, c, -s)
    ensures Row(b, x, y, d, s, s + 4, c)
  {
    forall i | s <= i <= s + 4 ensures StoneAlong(b, x, y, d, i, c) {
      if i < 0 {
        assert Stone(b, Along(x, sx, -i), Along(y, sy, -i), c);
        BackStone(b, x, y, d, -i, c);
      }
    }
  }

  /** A row from s to s + 4 is a run of s + 4 ahead and one of -s back. */
  lemma RowIsRuns(b: Board, x: int, y: int, d: nat, s: int, c: Cell)
    requires -4 <= s <= 0 && Stone(b, x, y, c)
    ensures Row(b, x, y, d, s, s + 4, c) <==>
      Stones(b, x, y, Dx(d), Dy(d), c, s + 4) && Stones(b, x, y, -Dx(d), -Dy(d), c, -s)
  {
    if Row(b, x, y, d, s, s + 4, c) {
      RowGivesBack(b, x, y, d, s, -Dx(d), -Dy(d), c);
      RowGivesAhead(b, x, y, d, s, c);
    }
    if Stones(b, x, y, Dx(d), Dy(d), c, s + 4) && Stones(b, x, y, -Dx(d), -Dy(d), c, -s) {
      RunsGiveRow(b, x, y, d, s, -Dx(d), -Dy(d), c);
    }
  }

  /** Both runs together make five exactly when five aligned stones go through (x, y). */
  lemma RunsDecide(b: Board, x: int, y: int, d: nat, c: Cell, ahead: int, back: int)
    requires d < 4 && Stone(b, x, y, c)
    requires RunIs(b, x, y, Dx(d), Dy(d), c, ahead) && RunIs(b, x, y, -Dx(d), -Dy(d), c, back)
    ensures 1 + ahead + back >= 5 <==> exists s: int :: FiveFrom(b, x, y, d, s, c)
  {
    forall s: int | -4 <= s <= 0
      ensures FiveFrom(b, x, y, d, s, c) <==> ahead >= s + 4 && back >= -s
    {
      RowIsRuns(b, x, y, d, s, c);
      RunReaches(b, x, y, Dx(d), Dy(d), c, ahead, s + 4);
      RunReaches(b, x, y, -Dx(d), -Dy(d), c, back, -s);
    }
    assert ahead + back >= 4 ==> FiveFrom(b, x, y, d, ahead - 4, c);
  }

  class GameRoom {
    const size: nat
    const roomId: int
    const player1: int
    const player2: int
    var currentTurn: int
    var moveCount: int
    var gameOver: bool
    var winner: int
    var winnerReason: string
    var lastMove: (int, int)
    var board: Board

    ghost predicate Valid()
      reads this
    {
      |board| == size && Square(board)
    }

    function State(): Room
      reads this
    {
      Room(roomId, player1, player2, currentTurn, moveCount, gameOver, winner, winnerReason, lastMove, board)
    }

    constructor (n: nat, id: int, p1: int, p2: int)
      ensures Valid() && size == n && State() == NewRoom(n, id, p1, p2)
    {
      size, roomId, player1, player2 := n, id, p1, p2;
      currentTurn, moveCount, gameOver, winner, winnerReason, lastMove := p1, 0, false, 0, "", (-1, -1);
      board := seq(n, _ => seq(n, _ => Empty));
    }

    /** The object fromSnapshot builds. */
    constructor Restore(r: Room)
      requires Square(r.board)
      ensures Valid() && State() == r && size == |r.board|
    {
      size, roomId, player1, player2 := |r.board|, r.roomId, r.player1, r.player2;
      currentTurn, moveCount, gameOver, winner, winnerReason, lastMove :=
        r.currentTurn, r.moveCount, r.gameOver, r.winner, r.reason, r.lastMove;
      board := r.board;
    }

    method IsInBoard(x: int, y: int) returns (r: bool)
      requires Valid()
      ensures r == InBoard(board, x, y)
    {
      r := x >= 0 && x < size && y >= 0 && y < size;
    }

    /** One of the two counting loops of checkWin, along (sx, sy). */
    method CountAlong(x: int, y: int, sx: int, sy: int, c: Cell) returns (k: int)
      requires Valid() && -1 <= sx <= 1 && -1 <= sy <= 1
      ensures RunIs(board, x, y, sx, sy, c, k)
    {
      k := 0;
      var i := 1;
      while i < 5
        invariant 1 <= i <= 5 && k == i - 1
        invariant forall j | 1 <= j < i :: Stone(board, Along(x, sx, j), Along(y, sy, j), c)
      {
        var newX, newY := x + sx * i, y + sy * i;
        AlongIs(x, sx, i);
        AlongIs(y, sy, i);
        var inside := IsInBoard(newX, newY);
        if !inside || board[newX][newY] != c { break; }
        k := k + 1;
        i := i + 1;
      }
    }

    /** One turn of checkWin: both runs along one direction. */
    method FiveAlong(x: int, y: int, sx: int, sy: int, c: Cell, ghost d: nat) returns (five: bool)
      requires Valid() && Stone(board, x, y, c) && d < 4 && sx == Dx(d) && sy == Dy(d)
      ensures five <==> exists s: int :: FiveFrom(board, x, y, d, s, c)
    {
      var count := 1;
      var ahead := CountAlong(x, y, sx, sy, c);
      count := count + ahead;
      var back := CountAlong(x, y, -sx, -sy, c);
      count := count + back;
      RunsDecide(board, x, y, d, c, ahead, back);
      five := count >= 5;
    }

    method CheckWin(x: int, y: int, c: Cell) returns (win: bool)
      requires Valid() && Stone(board, x, y, c)
      ensures win <==> FiveThrough(board, x, y, c)
    {
      var dx, dy := [1, 0, 1, 1], [0, 1, 1, -1];
      for dir := 0 to 4
        invariant forall d: nat, s: int | d < dir :: !FiveFrom(board, x, y, d, s, c)
      {
        win := FiveAlong(x, y, dx[dir], dy[dir], c, dir);
        if win { return; }
      }
      return false;
    }

    method MakeMove(player: int, x: int, y: int) returns (code: int)
      requires Valid()
      modifies this
      ensures Valid() && (State(), code) == Move(old(State()), player, x, y)
    {
      if gameOver { return -2; }
      if player != currentTurn { return -3; }
      var inside := IsInBoard(x, y);
      if !inside || board[x][y] != Empty { return -1; }
      var stone := if player == player1 then Black else White;
      board := Place(board, x, y, stone);
      moveCount := moveCount + 1;
      lastMove := (x, y);
      var win := CheckWin(x, y, stone);
      if win {
        gameOver, winner, winnerReason := true, player, "five_in_row";
        return 0;
      }
      if moveCount >= size * size {
        gameOver, winner, winnerReason := true, -1, "draw";
        return 0;
      }
      currentTurn := if currentTurn == player1 then player2 else player1;
      return 0;
    }

    method ForfeitTo(winnerId: int)
      requires Valid()
      modifies this
      ensures Valid() && State() == Forfeit(old(State()), winnerId)
    {
      gameOver, winner, winnerReason := true, winnerId, "opponent_left";
    }
  }

  // ---------------------------------------------------------------- JSON form

  function CellName(c: Cell): string {
    match c
    case Empty => "empty"
    case Black => "black"
    case White => "white"
  }

  function NamedCell(s: string): Option<Cell> {
    if s == "empty" then Some(Empty) else if s == "black" then Some(Black) else if s == "white" then Some(White) else None
  }

  function RowJson(row: seq<Cell>): seq<Json> {
    if row == [] then [] else [Str(CellName(row[0]))] + RowJson(row[1..])
  }

  function BoardJson(b: Board): seq<Json> {
    if b == [] then [] else [Arr(RowJson(b[0]))] + BoardJson(b[1..])
  }

  function Snapshot(r: Room): Json {
    Obj(map[
      "roomId" := Num(r.roomId), "player1" := Num(r.player1), "player2" := Num(r.player2),
      "currentTurn" := Num(r.currentTurn), "moveCount" := Num(r.moveCount), "gameOver" := Bool(r.gameOver),
      "winner" := Num(r.winner), "winnerReason" := Str(r.reason),
      "lastMove" := Obj(map["x" := Num(r.lastMove.0), "y" := Num(r.lastMove.1)]),
      "board" := Arr(BoardJson(r.board))])
  }

  function ReadRow(cells: seq<Json>): Option<seq<Cell>> {
    if cells == [] then Some([])
    else if !cells[0].Str? then None
    else
      var c := NamedCell(cells[0].s);
      var rest := ReadRow(cells[1..]);
      if c.Some? && rest.Some? then Some([c.value] + rest.value) else None
  }

  function ReadBoard(rows: seq<Json>): Option<Board> {
    if rows == [] then Some([])
    else if !rows[0].Arr? then None
    else
      var row := ReadRow(rows[0].elems);
      var rest := ReadBoard(rows[1..]);
      if row.Some? && rest.Some? then Some([row.value] + rest.value) else None
  }

  /** fromSnapshot; a missing field or a value of the wrong type throws. */
  function FromSnapshot(j: Json): Option<Room> {
    if IsNum(j, "roomId") && IsNum(j, "player1") && IsNum(j, "player2") && IsNum(j, "currentTurn") && IsNum(j, "moveCount")
       && Has(j, "gameOver") && Field(j, "gameOver").Bool? && IsNum(j, "winner")
       && Has(j, "winnerReason") && Field(j, "winnerReason").Str?
       && Has(j, "lastMove") && IsNum(Field(j, "lastMove"), "x") && IsNum(Field(j, "lastMove"), "y")
       && Has(j, "board") && Field(j, "board").Arr? && ReadBoard(Field(j, "board").elems).Some?
    then
      Some(Room(Field(j, "roomId").n, Field(j, "player1").n, Field(j, "player2").n, Field(j, "currentTurn").n,
                Field(j, "moveCount").n, Field(j, "gameOver").b, Field(j, "winner").n, Field(j, "winnerReason").s,
                (Field(Field(j, "lastMove"), "x").n, Field(Field(j, "lastMove"), "y").n), ReadBoard(Field(j, "board").elems).value))
    else None
  }

  lemma {:induction false} RowReadsBack(row: seq<Cell>)
    ensures ReadRow(RowJson(row)) == Some(row)
  {
    if row != [] {
      RowReadsBack(row[1..]);
      assert RowJson(row)[1..] == RowJson(row[1..]);
      assert row == [row[0]] + row[1..];
    }
  }

  lemma {:induction false} BoardReadsBack(b: Board)
    ensures ReadBoard(BoardJson(b)) == Some(b)
  {
    if b != [] {
      RowReadsBack(b[0]);
      BoardReadsBack(b[1..]);
      assert BoardJson(b)[1..] == BoardJson(b[1..]);
      assert b == [b[0]] + b[1..];
    }
  }

  /** A room restored from its snapshot is the room. */
  lemma SnapshotReadsBack(r: Room)
    ensures FromSnapshot(Snapshot(r)) == Some(r)
  {
    BoardReadsBack(r.board);
  }
}
