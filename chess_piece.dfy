/**
 * Pseudo-legal move generation: dispatch on the piece's kind. Only the pawn rule
 * is part of this model; the rook, knight, bishop, queen and king rules are a
 * parameter `others` of every operation that generates moves.
 */
module Pieces {
  import opened Wrappers
  import opened ChessTypes
  import opened Board

  /**
   * The move helpers for ROOK, KNIGHT, BISHOP, QUEEN and KING: given the board, the
   * piece and its square, the moves they append.
   */
  type OtherMoves = (Grid, ChessPiece, Position) -> seq<ChessMove>

  /** A pawn's forward row step: +1 for white, -1 for black. */
  function Forward(color: TeamColor): int {
    if color == White then 1 else -1
  }

  /**
   * The pawn rule as the source runs it: the occupancy and bounds test before the
   * forward move is followed by an empty statement, so the forward move is always
   * added, and the two diagonal targets are computed but never added.
   */
  function PawnMoves(color: TeamColor, from: Position): seq<ChessMove> {
    [ChessMove(from, Position(from.row + Forward(color), from.col), None)]
  }

  /** The moves `pieceMoves` returns for `piece` standing on `from`. */
  function PseudoMoves(others: OtherMoves, g: Grid, piece: ChessPiece, from: Position): seq<ChessMove> {
    if piece.pieceType == Pawn then PawnMoves(piece.pieceColor, from) else others(g, piece, from)
  }

  /** Appends the pawn's moves to `validMove`. */
  method PawnMove(board: ChessBoard, piece: ChessPiece, myPosition: Position, validMove: seq<ChessMove>)
    returns (result: seq<ChessMove>)
    requires board.Valid()
    ensures result == validMove + PawnMoves(piece.pieceColor, myPosition)
  {
    var oneMove := Forward(piece.pieceColor);
    var forward := Position(myPosition.row + oneMove, myPosition.col);
    // The guard is evaluated, but the statement it controls is empty.
    var guard := InBound(forward) && board.GetPiece(forward) == null;
    result := validMove + [ChessMove(myPosition, forward, None)];
    // The capture targets; nothing is added for them.
    var leftEnemy := Position(myPosition.row + oneMove, myPosition.col - 1);
    var rightEnemy := Position(myPosition.row + oneMove, myPosition.col + 1);
  }

  /** Starts from an empty list and returns what the helper for the piece's kind appends. */
  method PieceMoves(others: OtherMoves, piece: ChessPiece, board: ChessBoard, myPosition: Position)
    returns (validMove: seq<ChessMove>)
    requires board.Valid()
    ensures validMove == PseudoMoves(others, board.cells, piece, myPosition)
  {
    validMove := [];
    if piece.pieceType == Pawn {
      validMove := PawnMove(board, piece, myPosition, validMove);
    } else {
      validMove := validMove + others(board.Cells(), piece, myPosition);
    }
  }

  /** A pawn moves one row forward: up for white, down for black. */
  lemma PawnDirection(others: OtherMoves, g: Grid, piece: ChessPiece, from: Position)
    requires piece.pieceType == Pawn
    ensures var ms := PseudoMoves(others, g, piece, from);
      |ms| == 1 &&
      ms[0].start == from && ms[0].end.col == from.col && ms[0].promotion == None &&
      ms[0].end.row == from.row + Forward(piece.pieceColor)
  {
  }

  /**
   * A pawn's moves do not depend on the board: the forward move is produced when
   * the target is occupied (by either side) or off the board.
   */
  lemma PawnIgnoresBoard(others: OtherMoves, g: Grid, h: Grid, piece: ChessPiece, from: Position)
    requires piece.pieceType == Pawn
    ensures PseudoMoves(others, g, piece, from) == PseudoMoves(others, h, piece, from)
  {
  }

  /** A pawn never captures diagonally: every move it yields stays in its column. */
  lemma PawnNeverCapturesDiagonally(others: OtherMoves, g: Grid, piece: ChessPiece, from: Position, m: ChessMove)
    requires piece.pieceType == Pawn && m in PseudoMoves(others, g, piece, from)
    ensures m.start == from && m.end.col == from.col && m.end.row != from.row
  {
  }
}
