/**
 * The game state held by the tic-tac-toe component: the board, the player
 * to move and the winner, with the moves that change them. The framework's
 * reactive signals become plain fields and the derived `isDraw` becomes a
 * function of them.
 */
module GameState {
  import opened Wrappers
  import opened Board

  class Game {
    var board: seq<string>
    var currentPlayer: string
    var winner: Option<string>

    /**
     * The invariant every reachable state keeps: nine well-formed cells, a
     * player to move, and either a game in progress (no complete line, the
     * current player is due by the mark counts) or a game won by the player
     * who moved last (only that player owns a complete line).
     */
    ghost predicate Valid()
      reads this
    {
      |board| == 9 && WellFormed(board) && IsPlayer(currentPlayer) &&
      match winner
      case None => !CheckWinner(board) && Balanced(board, currentPlayer)
      case Some(w) =>
        w == currentPlayer && WinsFor(board, w) && !WinsFor(board, Opponent(w)) &&
        Balanced(board, Opponent(w))
    }

    /** The initial field values: an empty board, X to move, no winner. */
    constructor ()
      ensures Valid()
      ensures board == EmptyBoard && currentPlayer == X && winner == None
    {
      board := EmptyBoard;
      currentPlayer := X;
      winner := None;
      EmptyBoardIsStart();
    }

    /** The guard of `makeMove`: the indexed cell reads `''` and no winner is set. */
    predicate CanMove(index: int)
      reads this
      ensures CanMove(index) <==>
        0 <= index < |board| && board[index] == Empty && (winner.None? || winner.value == Empty)
    {
      CellAt(board, index) == Some(Empty) && !Truthy(winner)
    }

    /**
     * `makeMove(index)`: place the current player's mark at `index`; then
     * either record the mover as winner or hand the turn over. An occupied
     * cell, an index outside the board or a finished game changes nothing.
     */
    method MakeMove(index: int)
      requires Valid()
      modifies this
      ensures Valid()
      ensures old(CanMove(index)) <==> 0 <= index < 9 && old(board)[index] == Empty && old(winner) == None
      ensures !old(CanMove(index)) ==>
        board == old(board) && currentPlayer == old(currentPlayer) && winner == old(winner)
      ensures old(CanMove(index)) ==> board == old(board)[index := old(currentPlayer)]
      ensures old(CanMove(index)) && CheckWinner(board) ==>
        winner == Some(old(currentPlayer)) && currentPlayer == old(currentPlayer)
      ensures old(CanMove(index)) && !CheckWinner(board) ==>
        winner == None && currentPlayer == Opponent(old(currentPlayer)) && currentPlayer != old(currentPlayer)
    {
      if CellAt(board, index) == Some(Empty) && !Truthy(winner) {
        var before := board;
        var newBoard := new string[|before|](i requires 0 <= i < |before| => before[i]);
        newBoard[index] := currentPlayer;
        board := newBoard[..];
        assert board == before[index := currentPlayer];
        PlacingKeepsBalance(before, index, currentPlayer);

        if CheckWinner(board) {
          WinningMoveWinsForMover(before, index, currentPlayer);
          if WinsFor(board, Opponent(currentPlayer)) {
            NewLinesBelongToMover(before, index, currentPlayer, Opponent(currentPlayer));
          }
          winner := Some(currentPlayer);
        } else {
          currentPlayer := Opponent(currentPlayer);
        }
      }
    }

    /** `resetGame()`: back to the initial state, whatever the state before. */
    method ResetGame()
      modifies this
      ensures Valid()
      ensures board == EmptyBoard && currentPlayer == X && winner == None
    {
      board := EmptyBoard;
      currentPlayer := X;
      winner := None;
      EmptyBoardIsStart();
    }

    /** `isDraw`: no winner and every cell filled. */
    function IsDraw(): (r: bool)
      reads this
      ensures r <==> !Truthy(winner) && forall i :: 0 <= i < |board| ==> board[i] != Empty
    {
      !Truthy(winner) && AllFilled(board)
    }
  }

  /**
   * In a reachable state a draw is a genuine stalemate: the winner is unset,
   * no line is complete, X has five marks and O four, and O is nominally to
   * move, so no further move is possible.
   */
  lemma DrawIsStalemate(g: Game)
    requires g.Valid() && g.IsDraw()
    ensures g.winner == None && !CheckWinner(g.board)
    ensures Count(g.board, X) == 5 && Count(g.board, O) == 4 && g.currentPlayer == O
    ensures forall index :: !g.CanMove(index)
  {
    FullBoardShape(g.board, g.currentPlayer);
  }

  /** In a reachable state `isDraw` and a set winner exclude each other, and a winner owns a line. */
  lemma WinnerOwnsOnlyLine(g: Game)
    requires g.Valid() && g.winner.Some?
    ensures !g.IsDraw() && CheckWinner(g.board)
    ensures forall m :: WinsFor(g.board, m) <==> m == g.winner.value
  {
    var w := g.winner.value;
    CheckWinnerIsXOrO(g.board);
    forall m | WinsFor(g.board, m) ensures m == w {
      CheckWinnerIsXOrO(g.board);
      var W := WinningCombinations;
      var k :| 0 <= k < |W| && LineComplete(g.board, W[k]) && CellAt(g.board, W[k].a) == Some(m);
      assert IsPlayer(m);
    }
  }
}
