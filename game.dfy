/**
 * The game object: a board, the side to move, and the queries and moves the
 * server drives. Each operation is proved against the board-value rules of
 * GameRules.
 */
module Game {
  import opened Wrappers
  import opened ChessTypes
  import opened Board
  import opened Pieces
  import opened GameRules

  /** The inner loop of isInCheck: whether some move of `moves` ends on `target` (never, when there is no target). */
  method EndsOn(moves: seq<ChessMove>, target: Option<Position>) returns (hit: bool)
    ensures hit <==> target.Some? && exists m :: m in moves && m.end == target.value
  {
    for k := 0 to |moves|
      invariant forall l :: 0 <= l < k ==> Some(moves[l].end) != target
    {
      if Some(moves[k].end) == target {
        assert moves[k] in moves;
        return true;
      }
    }
    return false;
  }

  class ChessGame {
    var board: ChessBoard
    var nowTurn: TeamColor
    /** The move rules of the non-pawn pieces. */
    const others: OtherMoves

    ghost predicate Valid()
      reads this, board, board.squares
    {
      board.Valid()
    }

    /** A new game: an empty board (not the opening layout), white to move. */
    constructor (others: OtherMoves)
      ensures Valid() && fresh(board) && fresh(board.squares)
      ensures nowTurn == White && this.others == others
      ensures board.cells == EmptyGrid() && forall p :: InBound(p) ==> At(board.cells, p) == null
    {
      this.others := others;
      board := new ChessBoard();
      nowTurn := White;
    }

    /** A game object holding the given board and side to move (the field copy of `clone`). */
    constructor Copy(others: OtherMoves, board: ChessBoard, nowTurn: TeamColor)
      ensures this.others == others && this.board == board && this.nowTurn == nowTurn
    {
      this.others := others;
      this.board := board;
      this.nowTurn := nowTurn;
    }

    /** A game rebuilt from a stored board and side to move. */
    constructor FromState(others: OtherMoves, cells: Grid, nowTurn: TeamColor)
      ensures Valid() && fresh(board) && fresh(board.squares)
      ensures board.cells == cells && this.nowTurn == nowTurn && this.others == others
    {
      this.others := others;
      board := new ChessBoard.FromGrid(cells);
      this.nowTurn := nowTurn;
    }

    method SetTeamTurn(team: TeamColor)
      modifies this
      ensures nowTurn == team && board == old(board)
    {
      nowTurn := team;
    }

    /** The moves of the piece on `start`, none for an empty square, an empty list for the side not to move. */
    method ValidMoves(start: Position) returns (moves: Result<Option<seq<ChessMove>>, GameError>)
      requires Valid()
      ensures moves == ValidMovesOf(others, board.cells, nowTurn, start)
    {
      if !InBound(start) {
        return Err(IndexOutOfBounds);
      }
      var piece := board.GetPiece(start);
      if piece == null {
        return Ok(None);
      }
      if piece.pieceColor != nowTurn {
        return Ok(Some([]));
      }
      var pieceMoves := PieceMoves(others, piece, board, start);
      return Ok(Some(pieceMoves));
    }

    /**
     * Checks the move, executes it and passes the turn; on failure neither the board
     * nor the turn changes.
     */
    method MakeMove(move: ChessMove) returns (failure: Option<GameError>)
      requires Valid()
      modifies this, board, board.squares
      ensures Valid() && board == old(board) && board.squares == old(board.squares)
      ensures match ApplyMove(others, old(board.cells), old(nowTurn), move)
        case Ok((after, next)) => failure == None && board.cells == after && nowTurn == next
        case Err(e) => failure == Some(e) && board.cells == old(board.cells) && nowTurn == old(nowTurn)
    {
      if !InBound(move.start) {
        return Some(IndexOutOfBounds);
      }
      var piece := board.GetPiece(move.start);
      if piece == null {
        return Some(InvalidMove(NoPieceMessage));
      }
      if piece.pieceColor != nowTurn {
        return Some(InvalidMove(NotTurnMessage));
      }
      var legalMoves := ValidMoves(move.start);
      if !legalMoves.Ok? || legalMoves.value.None? || move !in legalMoves.value.value {
        return Some(InvalidMove(InvalidMoveMessage));
      }
      failure := ExecuteMove(move);
      if failure.Some? {
        return;
      }
      if nowTurn == White {
        nowTurn := Black;
      } else {
        nowTurn := White;
      }
    }

    /**
     * Moves the piece on the start square to the end square and clears the start;
     * capturing a piece of the mover's own colour fails.
     */
    method ExecuteMove(move: ChessMove) returns (failure: Option<GameError>)
      requires Valid()
      modifies board, board.squares
      ensures Valid() && board.squares == old(board.squares)
      ensures match Simulate(old(board.cells), move)
        case Ok(after) => failure == None && board.cells == after
        case Err(e) => failure == Some(e) && board.cells == old(board.cells)
    {
      if !InBound(move.start) || !InBound(move.end) {
        return Some(IndexOutOfBounds);
      }
      var piece := board.GetPiece(move.start);
      var capturedPiece := board.GetPiece(move.end);
      if capturedPiece != null && piece == null {
        return Some(NullPointer);
      }
      if capturedPiece != null && capturedPiece.pieceColor == piece.pieceColor {
        return Some(CaptureOwnPiece);
      }
      ghost var before := board.cells;
      board.AddPiece(move.end, piece);
      board.AddPiece(move.start, null);
      GridExtensionality(board.cells, Put(Put(before, move.end, piece), move.start, null));
      return None;
    }

    /** The first knight (not king) of `teamColor`, scanning rows 1..8 and in each row columns 1..8. */
    method FindKing(teamColor: TeamColor) returns (kingPosition: Option<Position>)
      requires Valid()
      ensures kingPosition == KingSquare(board.cells, teamColor)
    {
      for row := 1 to 9
        invariant FirstKnightFrom(board.cells, teamColor, row, 1) == KingSquare(board.cells, teamColor)
      {
        for col := 1 to 9
          invariant FirstKnightFrom(board.cells, teamColor, row, col) == KingSquare(board.cells, teamColor)
        {
          var position := Position(row, col);
          var piece := board.GetPiece(position);
          if piece != null && piece.pieceType == Knight && piece.pieceColor == teamColor {
            return Some(position);
          }
        }
      }
      return None;
    }

    /** The occupied squares in row-major order. */
    method GetAllPieces() returns (pieces: seq<Position>)
      requires Valid()
      ensures pieces == AllPieces(board.cells)
    {
      pieces := [];
      for row := 1 to 9
        invariant pieces == OccupiedBefore(board.cells, row, 1)
      {
        for col := 1 to 9
          invariant pieces == OccupiedBefore(board.cells, row, col)
        {
          var position := Position(row, col);
          var piece := board.GetPiece(position);
          if piece != null {
            pieces := pieces + [position];
          }
        }
      }
    }

    /** Whether some piece not of `teamColor` has a move ending on the square FindKing reports. */
    method IsInCheck(teamColor: TeamColor) returns (inCheck: bool)
      requires Valid()
      ensures inCheck == InCheck(others, board.cells, teamColor)
    {
      var kingPosition := FindKing(teamColor);
      var pieces := GetAllPieces();
      InCheckByScan(others, board.cells, teamColor);
      for i := 0 to |pieces|
        invariant kingPosition.Some? ==>
          ThreatScan(others, board.cells, teamColor, kingPosition.value, pieces[i..]) ==
          ThreatScan(others, board.cells, teamColor, kingPosition.value, pieces)
      {
        var pos := pieces[i];
        assert InBound(pos) && At(board.cells, pos) != null by {
          AllPiecesSpec(board.cells);
          assert pos in pieces;
        }
        var piece := board.GetPiece(pos);
        if piece.pieceColor != teamColor {
          var moves := PieceMoves(others, piece, board, pos);
          var hit := EndsOn(moves, kingPosition);
          if hit {
            return true;
          }
        }
        assert pieces[i..][1..] == pieces[i + 1..];
      }
      return false;
    }

    /**
     * Not in check gives false; otherwise each move of each own piece is executed on
     * a clone, and the first one after which the side is out of check gives false.
     * A failing execution ends the query with that failure.
     */
    method IsInCheckmate(teamColor: TeamColor) returns (result: Result<bool, GameError>)
      requires Valid()
      ensures result == Checkmate(others, board.cells, teamColor)
    {
      var inCheck := IsInCheck(teamColor);
      if !inCheck {
        return Ok(false);
      }
      var pieces := GetAllPieces();
      for i := 0 to |pieces|
        invariant MateScan(others, board.cells, teamColor, pieces[i..]) == MateScan(others, board.cells, teamColor, pieces)
      {
        var pos := pieces[i];
        assert InBound(pos) && At(board.cells, pos) != null by {
          AllPiecesSpec(board.cells);
          assert pos in pieces;
        }
        var piece := board.GetPiece(pos);
        if piece.pieceColor == teamColor {
          var moves := PieceMoves(others, piece, board, pos);
          var escape := TryMoves(teamColor, moves);
          if escape != Ok(true) {
            return escape;
          }
        }
        assert pieces[i..][1..] == pieces[i + 1..];
      }
      return Ok(true);
    }

    /**
     * The inner loop of isInCheckmate: each move executed on a fresh clone, stopping
     * at the first failure or the first move that leaves `teamColor` out of check.
     */
    method TryMoves(teamColor: TeamColor, moves: seq<ChessMove>) returns (result: Result<bool, GameError>)
      requires Valid()
      ensures result == EscapeScan(others, board.cells, teamColor, moves)
    {
      for k := 0 to |moves|
        invariant EscapeScan(others, board.cells, teamColor, moves[k..]) == EscapeScan(others, board.cells, teamColor, moves)
      {
        assert moves[k..][1..] == moves[k + 1..];
        var clonedGame := Clone();
        var failure := clonedGame.ExecuteMove(moves[k]);
        if failure.Some? {
          return Err(failure.value);
        }
        var stillInCheck := clonedGame.IsInCheck(teamColor);
        if !stillInCheck {
          return Ok(false);
        }
      }
      return Ok(true);
    }

    /** Not in check, and no piece of `teamColor` has a move; the side to move is not consulted. */
    method IsInStalemate(teamColor: TeamColor) returns (stalemate: bool)
      requires Valid()
      ensures stalemate == Stalemate(others, board.cells, teamColor)
    {
      var inCheck := IsInCheck(teamColor);
      if inCheck {
        return false;
      }
      var pieces := GetAllPieces();
      for i := 0 to |pieces|
        invariant MovableScan(others, board.cells, teamColor, pieces[i..]) == MovableScan(others, board.cells, teamColor, pieces)
      {
        var pos := pieces[i];
        assert InBound(pos) && At(board.cells, pos) != null by {
          AllPiecesSpec(board.cells);
          assert pos in pieces;
        }
        var piece := board.GetPiece(pos);
        if piece.pieceColor == teamColor {
          var moves := PieceMoves(others, piece, board, pos);
          if |moves| != 0 {
            StalemateByScan(others, board.cells, teamColor);
            return false;
          }
        }
        assert pieces[i..][1..] == pieces[i + 1..];
      }
      StalemateByScan(others, board.cells, teamColor);
      return true;
    }

    /** A new game object with a deep copy of the board and the same side to move. */
    method Clone() returns (cloned: ChessGame)
      requires Valid()
      ensures fresh(cloned) && fresh(cloned.board) && fresh(cloned.board.squares) && cloned.Valid()
      ensures cloned.board.cells == board.cells && cloned.nowTurn == nowTurn && cloned.others == others
    {
      var boardCopy := board.Clone();
      cloned := new ChessGame.Copy(others, boardCopy, nowTurn);
    }
  }
}
