/** Option type standing for JavaScript's `null` and `undefined`. */
module Wrappers {
  datatype Option<+T> = None | Some(value: T)
}

/**
 * The win evaluator of the tic-tac-toe component: a 3x3 board stored
 * row-major in 9 string cells ("", "X" or "O"), the fixed table of eight
 * winning triples, and the derived facts the game relies on.
 */
module Board {
  import opened Wrappers

  const Empty: string := ""
  const X: string := "X"
  const O: string := "O"

  /** `Array(9).fill('')`. */
  const EmptyBoard: seq<string> := [Empty, Empty, Empty, Empty, Empty, Empty, Empty, Empty, Empty]

  /** The two marks a player can place. */
  predicate IsPlayer(p: string) {
    p == X || p == O
  }

  /** Every cell holds one of the three values the game ever writes. */
  predicate WellFormed(board: seq<string>) {
    forall i :: 0 <= i < |board| ==> board[i] == Empty || IsPlayer(board[i])
  }

  /** The turn hand-over of the component: `p === 'X' ? 'O' : 'X'`. */
  function Opponent(p: string): (r: string)
    ensures IsPlayer(r) && r != p
    ensures p == X <==> r == O
  {
    if p == X then O else X
  }

  /** JavaScript array indexing: an index outside the array reads `undefined`, modelled as None. */
  function CellAt(board: seq<string>, i: int): Option<string> {
    if 0 <= i < |board| then Some(board[i]) else None
  }

  /** JavaScript truthiness of a `string | null | undefined`: only a non-empty string is truthy. */
  predicate Truthy(v: Option<string>) {
    v.Some? && v.value != Empty
  }

  /** One entry `[a, b, c]` of the table of winning combinations. */
  datatype Line = Line(a: int, b: int, c: int)

  /** The three rows, the three columns and the two diagonals, in the order of the source table. */
  const WinningCombinations: seq<Line> := [
    Line(0, 1, 2), Line(3, 4, 5), Line(6, 7, 8),
    Line(0, 3, 6), Line(1, 4, 7), Line(2, 5, 8),
    Line(0, 4, 8), Line(2, 4, 6)
  ]

  /** The predicate handed to `.some`: `board[a] && board[a] === board[b] && board[a] === board[c]`. */
  predicate LineComplete(board: seq<string>, l: Line)
    ensures LineComplete(board, l) <==>
      0 <= l.a < |board| && 0 <= l.b < |board| && 0 <= l.c < |board| &&
      board[l.a] != Empty && board[l.b] == board[l.a] && board[l.c] == board[l.a]
  {
    Truthy(CellAt(board, l.a)) && CellAt(board, l.a) == CellAt(board, l.b) && CellAt(board, l.a) == CellAt(board, l.c)
  }

  /** `lines.some(LineComplete)`, scanning the table front to back. */
  function AnyComplete(board: seq<string>, lines: seq<Line>): (r: bool)
    ensures r <==> exists k :: 0 <= k < |lines| && LineComplete(board, lines[k])
  {
    if |lines| == 0 then false
    else if LineComplete(board, lines[0]) then true
    else
      var rest := AnyComplete(board, lines[1..]);
      assert forall k :: 1 <= k < |lines| ==> lines[k] == lines[1..][k - 1];
      rest
  }

  /** `checkWinner(board)`: some winning combination is complete. */
  function CheckWinner(board: seq<string>): (r: bool)
    ensures r <==> exists m :: WinsFor(board, m)
  {
    var r := AnyComplete(board, WinningCombinations);
    assert r ==> exists m :: WinsFor(board, m) by {
      if r {
        var k :| 0 <= k < |WinningCombinations| && LineComplete(board, WinningCombinations[k]);
        assert WinsFor(board, board[WinningCombinations[k].a]);
      }
    }
    r
  }

  /** The scan spelled out entry by entry over the eight winning combinations. */
  lemma CheckWinnerByLines(board: seq<string>)
    ensures CheckWinner(board) <==>
      LineComplete(board, Line(0, 1, 2)) || LineComplete(board, Line(3, 4, 5)) || LineComplete(board, Line(6, 7, 8)) ||
      LineComplete(board, Line(0, 3, 6)) || LineComplete(board, Line(1, 4, 7)) || LineComplete(board, Line(2, 5, 8)) ||
      LineComplete(board, Line(0, 4, 8)) || LineComplete(board, Line(2, 4, 6))
  {
    var W := WinningCombinations;
    assert W[0] == Line(0, 1, 2) && W[1] == Line(3, 4, 5) && W[2] == Line(6, 7, 8);
    assert W[3] == Line(0, 3, 6) && W[4] == Line(1, 4, 7) && W[5] == Line(2, 5, 8);
    assert W[6] == Line(0, 4, 8) && W[7] == Line(2, 4, 6);
  }

  /** `board.every((cell) => cell !== '')`. */
  function AllFilled(board: seq<string>): (r: bool)
    ensures r <==> forall i :: 0 <= i < |board| ==> board[i] != Empty
  {
    if |board| == 0 then true
    else if board[0] == Empty then false
    else
      var rest := AllFilled(board[1..]);
      assert forall i :: 1 <= i < |board| ==> board[i] == board[1..][i - 1];
      rest
  }

  /** Some entry of the winning table is complete and holds the mark m. */
  ghost predicate WinsFor(board: seq<string>, m: string) {
    exists k :: 0 <= k < |WinningCombinations| && LineComplete(board, WinningCombinations[k]) && CellAt(board, WinningCombinations[k].a) == Some(m)
  }

  // ---------------------------------------------------------------------
  // An independent, geometric statement of "three in a row", written with
  // grid coordinates instead of the table.
  // ---------------------------------------------------------------------

  /** The cell in row r and column c of the row-major grid. */
  function Cell(board: seq<string>, r: int, c: int): Option<string> {
    CellAt(board, 3 * r + c)
  }

  /** The cell in row r of the anti-diagonal (top right to bottom left). */
  function AntiDiagonalCell(board: seq<string>, r: int): Option<string> {
    Cell(board, r, 2 - r)
  }

  ghost predicate RowOf(board: seq<string>, r: int, m: string) {
    forall c :: 0 <= c < 3 ==> Cell(board, r, c) == Some(m)
  }

  ghost predicate ColumnOf(board: seq<string>, c: int, m: string) {
    forall r :: 0 <= r < 3 ==> Cell(board, r, c) == Some(m)
  }

  ghost predicate DiagonalOf(board: seq<string>, m: string) {
    forall r :: 0 <= r < 3 ==> Cell(board, r, r) == Some(m)
  }

  ghost predicate AntiDiagonalOf(board: seq<string>, m: string) {
    forall r :: 0 <= r < 3 ==> AntiDiagonalCell(board, r) == Some(m)
  }

  /** The non-empty mark m fills a whole row, column or diagonal of the grid. */
  ghost predicate ThreeInARow(board: seq<string>, m: string) {
    m != Empty &&
    ((exists r :: 0 <= r < 3 && RowOf(board, r, m)) ||
     (exists c :: 0 <= c < 3 && ColumnOf(board, c, m)) ||
     DiagonalOf(board, m) ||
     AntiDiagonalOf(board, m))
  }

  /** The table of winning combinations is exactly the rows, columns and diagonals of the grid. */
  lemma WinsForIsThreeInARow(board: seq<string>, m: string)
    ensures WinsFor(board, m) <==> ThreeInARow(board, m)
  {
    var W := WinningCombinations;
    if WinsFor(board, m) {
      var k :| 0 <= k < |W| && LineComplete(board, W[k]) && CellAt(board, W[k].a) == Some(m);
      if k < 3 {
        assert RowOf(board, k, m);
      } else if k < 6 {
        assert ColumnOf(board, k - 3, m);
      } else if k == 6 {
        assert DiagonalOf(board, m);
      } else {
        assert AntiDiagonalOf(board, m);
      }
    }
    if ThreeInARow(board, m) {
      if r :| 0 <= r < 3 && RowOf(board, r, m) {
        assert Cell(board, r, 0) == Some(m) && Cell(board, r, 1) == Some(m) && Cell(board, r, 2) == Some(m);
        assert W[r] == Line(3 * r, 3 * r + 1, 3 * r + 2);
        assert LineComplete(board, W[r]);
      } else if c :| 0 <= c < 3 && ColumnOf(board, c, m) {
        assert Cell(board, 0, c) == Some(m) && Cell(board, 1, c) == Some(m) && Cell(board, 2, c) == Some(m);
        assert W[3 + c] == Line(c, c + 3, c + 6);
        assert LineComplete(board, W[3 + c]);
      } else if DiagonalOf(board, m) {
        assert Cell(board, 0, 0) == Some(m) && Cell(board, 1, 1) == Some(m) && Cell(board, 2, 2) == Some(m);
        assert LineComplete(board, W[6]);
      } else {
        assert AntiDiagonalCell(board, 0) == Some(m) && AntiDiagonalCell(board, 1) == Some(m) && AntiDiagonalCell(board, 2) == Some(m);
        assert LineComplete(board, W[7]);
      }
    }
  }

  /** `checkWinner` holds exactly when some non-empty mark fills a row, column or diagonal. */
  lemma CheckWinnerIsThreeInARow(board: seq<string>)
    ensures CheckWinner(board) <==> exists m :: ThreeInARow(board, m)
  {
    var W := WinningCombinations;
    if CheckWinner(board) {
      var k :| 0 <= k < |W| && LineComplete(board, W[k]);
      var m := CellAt(board, W[k].a).value;
      assert WinsFor(board, m);
      WinsForIsThreeInARow(board, m);
    }
    if m :| ThreeInARow(board, m) {
      WinsForIsThreeInARow(board, m);
    }
  }

  /** On a well-formed board the only marks that can win are X and O. */
  lemma CheckWinnerIsXOrO(board: seq<string>)
    requires WellFormed(board)
    ensures CheckWinner(board) <==> WinsFor(board, X) || WinsFor(board, O)
  {
    var W := WinningCombinations;
    if CheckWinner(board) {
      var k :| 0 <= k < |W| && LineComplete(board, W[k]);
      assert IsPlayer(board[W[k].a]);
    }
  }

  // ---------------------------------------------------------------------
  // Placing one mark.
  // ---------------------------------------------------------------------

  /**
   * Writing the mark p into an empty cell of a board with no complete line
   * can complete only lines through that cell, so every complete line
   * afterwards belongs to p.
   */
  lemma NewLinesBelongToMover(board: seq<string>, i: int, p: string, m: string)
    requires 0 <= i < |board| && board[i] == Empty
    requires !CheckWinner(board)
    requires WinsFor(board[i := p], m)
    ensures m == p
  {
    var W := WinningCombinations;
    var after := board[i := p];
    var k :| 0 <= k < |W| && LineComplete(after, W[k]) && CellAt(after, W[k].a) == Some(m);
    if W[k].a != i && W[k].b != i && W[k].c != i {
      assert false;
    }
  }

  /** A move that makes `checkWinner` true wins for the mover. */
  lemma WinningMoveWinsForMover(board: seq<string>, i: int, p: string)
    requires 0 <= i < |board| && board[i] == Empty
    requires !CheckWinner(board)
    requires CheckWinner(board[i := p])
    ensures WinsFor(board[i := p], p)
  {
    var W := WinningCombinations;
    var after := board[i := p];
    var k :| 0 <= k < |W| && LineComplete(after, W[k]);
    var m := CellAt(after, W[k].a).value;
    assert WinsFor(after, m);
    NewLinesBelongToMover(board, i, p, m);
  }

  // ---------------------------------------------------------------------
  // Counting marks.
  // ---------------------------------------------------------------------

  /** The number of cells that hold m. */
  function Count(board: seq<string>, m: string): nat {
    if |board| == 0 then 0
    else (if board[0] == m then 1 else 0) + Count(board[1..], m)
  }

  /** Overwriting an empty cell with p adds one p and leaves the count of every other mark alone. */
  lemma {:induction false} CountAfterPlacing(board: seq<string>, i: int, p: string, m: string)
    requires 0 <= i < |board| && board[i] == Empty && p != Empty
    ensures Count(board[i := p], m) ==
      if m == p then Count(board, m) + 1
      else if m == Empty then Count(board, m) - 1
      else Count(board, m)
  {
    if i == 0 {
      assert board[i := p][1..] == board[1..];
    } else {
      CountAfterPlacing(board[1..], i - 1, p, m);
      assert board[i := p][1..] == board[1..][i - 1 := p];
    }
  }

  /** On a well-formed board every cell is empty, X or O. */
  lemma {:induction false} CountPartition(board: seq<string>)
    requires WellFormed(board)
    ensures Count(board, Empty) + Count(board, X) + Count(board, O) == |board|
  {
    if |board| > 0 {
      assert WellFormed(board[1..]) by {
        forall i | 0 <= i < |board[1..]| ensures board[1..][i] == Empty || IsPlayer(board[1..][i]) {
          assert board[1..][i] == board[i + 1];
        }
      }
      CountPartition(board[1..]);
    }
  }

  /** A board with no empty cell counts no empty cell. */
  lemma {:induction false} FilledHasNoEmpty(board: seq<string>)
    requires AllFilled(board)
    ensures Count(board, Empty) == 0
  {
    if |board| > 0 {
      assert AllFilled(board[1..]);
      FilledHasNoEmpty(board[1..]);
    }
  }

  /**
   * The turn invariant: when `next` is to move, X has placed as many marks
   * as O (X to move) or exactly one more (O to move).
   */
  predicate Balanced(board: seq<string>, next: string) {
    (next == X ==> Count(board, X) == Count(board, O)) &&
    (next == O ==> Count(board, X) == Count(board, O) + 1)
  }

  /** The empty board has no complete line, no marks, and X is due to move. */
  lemma EmptyBoardIsStart()
    ensures |EmptyBoard| == 9 && WellFormed(EmptyBoard) && AllFilled(EmptyBoard) == false
    ensures !CheckWinner(EmptyBoard) && Count(EmptyBoard, X) == 0 && Count(EmptyBoard, O) == 0
    ensures Balanced(EmptyBoard, X)
  {
    CountAbsent(EmptyBoard, X);
    CountAbsent(EmptyBoard, O);
  }

  /** A mark that no cell holds is counted zero times. */
  lemma {:induction false} CountAbsent(board: seq<string>, m: string)
    requires forall i :: 0 <= i < |board| ==> board[i] != m
    ensures Count(board, m) == 0
  {
    if |board| > 0 {
      CountAbsent(board[1..], m);
    }
  }

  /** Placing the mover's mark into an empty cell hands a balanced board to the opponent. */
  lemma PlacingKeepsBalance(board: seq<string>, i: int, p: string)
    requires 0 <= i < |board| && board[i] == Empty && IsPlayer(p)
    requires Balanced(board, p)
    ensures Balanced(board[i := p], Opponent(p))
  {
    CountAfterPlacing(board, i, p, X);
    CountAfterPlacing(board, i, p, O);
  }

  /** A full, balanced 3x3 board was filled by X with five marks and O with four, and O is to move. */
  lemma FullBoardShape(board: seq<string>, next: string)
    requires |board| == 9 && WellFormed(board) && AllFilled(board)
    requires IsPlayer(next) && Balanced(board, next)
    ensures next == O && Count(board, X) == 5 && Count(board, O) == 4
  {
    CountPartition(board);
    FilledHasNoEmpty(board);
  }
}
