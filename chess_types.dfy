/**
 * The value types of the chess engine: colours, piece kinds, pieces, positions,
 * moves, and the 8x8 grid that is the abstract value of a board.
 */
module ChessTypes {
  import opened Wrappers

  datatype TeamColor = White | Black

  datatype PieceType = King | Queen | Bishop | Knight | Rook | Pawn

  /** The side that moves after `c`. */
  function Opponent(c: TeamColor): (r: TeamColor)
    ensures r != c
  {
    if c == White then Black else White
  }

  /**
   * A piece. The source class has no equality of its own, so two pieces are equal
   * only when they are the same object; a class gives the model the same identity.
   */
  class ChessPiece {
    const pieceColor: TeamColor
    const pieceType: PieceType

    constructor (pieceColor: TeamColor, pieceType: PieceType)
      ensures this.pieceColor == pieceColor && this.pieceType == pieceType
    {
      this.pieceColor := pieceColor;
      this.pieceType := pieceType;
    }
  }

  /** A square, 1-based; positions off the board can be built, just not read. */
  datatype Position = Position(row: int, col: int)

  datatype ChessMove = ChessMove(start: Position, end: Position, promotion: Option<PieceType>)

  /** Rows 0..7 and columns 0..7 of the board; square (r, c) is grid[r - 1][c - 1]. */
  type Grid = g: seq<seq<ChessPiece?>> | |g| == 8 && forall r :: 0 <= r < 8 ==> |g[r]| == 8
    witness seq(8, _ => seq(8, _ => null))

  /** The board's bounds check: both coordinates in 1..8, so the square indexes a grid row and column. */
  predicate InBound(p: Position)
    ensures InBound(p) ==> 0 <= p.row - 1 < 8 && 0 <= p.col - 1 < 8
  {
    1 <= p.row <= 8 && 1 <= p.col <= 8
  }

  function At(g: Grid, p: Position): ChessPiece?
    requires InBound(p)
  {
    g[p.row - 1][p.col - 1]
  }

  /** `g` with square `p` holding `x` (null clears it). */
  function Put(g: Grid, p: Position, x: ChessPiece?): (r: Grid)
    requires InBound(p)
    ensures At(r, p) == x
    ensures forall q :: InBound(q) && q != p ==> At(r, q) == At(g, q)
  {
    g[p.row - 1 := g[p.row - 1][p.col - 1 := x]]
  }

  /** Two grids are the same exactly when they agree on every square. */
  lemma GridExtensionality(g: Grid, h: Grid)
    requires forall p :: InBound(p) ==> At(g, p) == At(h, p)
    ensures g == h
  {
    forall r | 0 <= r < 8
      ensures g[r] == h[r]
    {
      forall c | 0 <= c < 8
        ensures g[r][c] == h[r][c]
      {
        assert At(g, Position(r + 1, c + 1)) == At(h, Position(r + 1, c + 1));
      }
    }
  }

  /** Row-major order of squares: p is read before q by a scan over rows 1..8 and columns 1..8. */
  predicate Before(p: Position, q: Position) {
    p.row < q.row || (p.row == q.row && p.col < q.col)
  }
}
