/** Two complete games played through the component's own operations. */
module Scenarios {
  import opened Wrappers
  import opened Board
  import opened GameState

  /** X takes the left column (cells 0, 3, 6) while O plays 1 and 2; a later click changes nothing. */
  method ColumnWin() returns (w: Option<string>, cells: seq<string>, next: string)
    ensures w == Some(X) && next == X
    ensures |cells| == 9 && cells[0] == X && cells[1] == O && cells[2] == O
    ensures cells[3] == X && cells[4] == Empty && cells[5] == Empty
    ensures cells[6] == X && cells[7] == Empty && cells[8] == Empty
  {
    var g := new Game();
    ColumnOpening(g);
    assert LineComplete(g.board[6 := g.currentPlayer], Line(0, 3, 6));
    CheckWinnerByLines(g.board[6 := g.currentPlayer]);
    Winning(g, 6);
    assert !g.CanMove(8);
    g.MakeMove(8);
    w, cells, next := g.winner, g.board, g.currentPlayer;
  }

  /** X plays 0 and 3, O plays 1 and 2; no line is completed. */
  method ColumnOpening(g: Game)
    requires g.Valid() && g.currentPlayer == X && g.winner == None
    requires |g.board| == 9 && g.board[0] == Empty && g.board[1] == Empty && g.board[2] == Empty && g.board[3] == Empty && g.board[4] == Empty && g.board[5] == Empty && g.board[6] == Empty && g.board[7] == Empty && g.board[8] == Empty
    modifies g
    ensures g.Valid() && g.currentPlayer == X && g.winner == None
    ensures |g.board| == 9 && g.board[0] == X && g.board[1] == O && g.board[2] == O && g.board[3] == X && g.board[4] == Empty && g.board[5] == Empty && g.board[6] == Empty && g.board[7] == Empty && g.board[8] == Empty
  {
    CheckWinnerByLines(g.board[0 := g.currentPlayer]);
    Quiet(g, 0);
    CheckWinnerByLines(g.board[1 := g.currentPlayer]);
    Quiet(g, 1);
    CheckWinnerByLines(g.board[3 := g.currentPlayer]);
    Quiet(g, 3);
    CheckWinnerByLines(g.board[2 := g.currentPlayer]);
    Quiet(g, 2);
  }

  /** One move that completes a line: the mover becomes the winner and keeps the turn. */
  method Winning(g: Game, index: int)
    requires g.Valid() && g.CanMove(index)
    requires CheckWinner(g.board[index := g.currentPlayer])
    modifies g
    ensures g.Valid() && g.winner == Some(old(g.currentPlayer)) && g.currentPlayer == old(g.currentPlayer)
    ensures g.board == old(g.board)[index := old(g.currentPlayer)]
  {
    g.MakeMove(index);
  }

  /** One move that completes no line: the mark is written and the turn passes. */
  method Quiet(g: Game, index: int)
    requires g.Valid() && g.CanMove(index)
    requires !CheckWinner(g.board[index := g.currentPlayer])
    modifies g
    ensures g.Valid() && g.winner == None
    ensures g.board == old(g.board)[index := old(g.currentPlayer)]
    ensures g.currentPlayer == Opponent(old(g.currentPlayer))
  {
    g.MakeMove(index);
  }

  /** Three moves of the drawn game, none of which completes a line. */
  method DrawOpening(g: Game)
    requires g.Valid() && g.currentPlayer == X && g.winner == None
    requires |g.board| == 9 && g.board[0] == Empty && g.board[1] == Empty && g.board[2] == Empty && g.board[3] == Empty && g.board[4] == Empty && g.board[5] == Empty && g.board[6] == Empty && g.board[7] == Empty && g.board[8] == Empty
    modifies g
    ensures g.Valid() && g.currentPlayer == O && g.winner == None
    ensures |g.board| == 9 && g.board[0] == X && g.board[1] == O && g.board[2] == X && g.board[3] == Empty && g.board[4] == Empty && g.board[5] == Empty && g.board[6] == Empty && g.board[7] == Empty && g.board[8] == Empty
  {
    CheckWinnerByLines(g.board[0 := g.currentPlayer]);
    Quiet(g, 0);
    CheckWinnerByLines(g.board[1 := g.currentPlayer]);
    Quiet(g, 1);
    CheckWinnerByLines(g.board[2 := g.currentPlayer]);
    Quiet(g, 2);
  }

  /** Three moves of the drawn game, none of which completes a line. */
  method DrawMiddle(g: Game)
    requires g.Valid() && g.currentPlayer == O && g.winner == None
    requires |g.board| == 9 && g.board[0] == X && g.board[1] == O && g.board[2] == X && g.board[3] == Empty && g.board[4] == Empty && g.board[5] == Empty && g.board[6] == Empty && g.board[7] == Empty && g.board[8] == Empty
    modifies g
    ensures g.Valid() && g.currentPlayer == X && g.winner == None
    ensures |g.board| == 9 && g.board[0] == X && g.board[1] == O && g.board[2] == X && g.board[3] == X && g.board[4] == O && g.board[5] == O && g.board[6] == Empty && g.board[7] == Empty && g.board[8] == Empty
  {
    CheckWinnerByLines(g.board[4 := g.currentPlayer]);
    Quiet(g, 4);
    CheckWinnerByLines(g.board[3 := g.currentPlayer]);
    Quiet(g, 3);
    CheckWinnerByLines(g.board[5 := g.currentPlayer]);
    Quiet(g, 5);
  }

  /** Three moves of the drawn game, none of which completes a line. */
  method DrawEnding(g: Game)
    requires g.Valid() && g.currentPlayer == X && g.winner == None
    requires |g.board| == 9 && g.board[0] == X && g.board[1] == O && g.board[2] == X && g.board[3] == X && g.board[4] == O && g.board[5] == O && g.board[6] == Empty && g.board[7] == Empty && g.board[8] == Empty
    modifies g
    ensures g.Valid() && g.currentPlayer == O && g.winner == None
    ensures |g.board| == 9 && g.board[0] == X && g.board[1] == O && g.board[2] == X && g.board[3] == X && g.board[4] == O && g.board[5] == O && g.board[6] == O && g.board[7] == X && g.board[8] == X
  {
    CheckWinnerByLines(g.board[7 := g.currentPlayer]);
    Quiet(g, 7);
    CheckWinnerByLines(g.board[6 := g.currentPlayer]);
    Quiet(g, 6);
    CheckWinnerByLines(g.board[8 := g.currentPlayer]);
    Quiet(g, 8);
  }

  /** X,O,X / X,O,O / O,X,X filled without a line ends in a draw; resetting starts over. */
  method Draw() returns (draw: bool, w: Option<string>, afterReset: seq<string>)
    ensures draw && w == None
    ensures afterReset == EmptyBoard
  {
    var g := new Game();
    DrawOpening(g);
    DrawMiddle(g);
    DrawEnding(g);
    draw, w := g.IsDraw(), g.winner;
    g.ResetGame();
    afterReset := g.board;
  }
}
