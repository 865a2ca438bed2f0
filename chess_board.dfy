/**
 * The board: an 8x8 array of optional pieces, written in place, reset to the
 * standard opening layout, compared square by square and deep-copied row by row.
 */
module Board {
  import opened ChessTypes

  /** The back-rank order, columns 1..8: rook, knight, bishop, queen, king, bishop, knight, rook. */
  function BackRank(col: int): PieceType
    requires 1 <= col <= 8
  {
    if col == 1 || col == 8 then Rook
    else if col == 2 || col == 7 then Knight
    else if col == 3 || col == 6 then Bishop
    else if col == 4 then Queen
    else King
  }

  predicate Holds(g: Grid, p: Position, color: TeamColor, kind: PieceType)
    requires InBound(p)
  {
    At(g, p) != null && At(g, p).pieceColor == color && At(g, p).pieceType == kind
  }

  /** Row `row` holds `color`'s back rank in columns 1..k; every other square is as in `before`. */
  ghost predicate BackRankUpTo(before: Grid, g: Grid, row: int, color: TeamColor, k: int) {
    (forall p :: InBound(p) && p.row == row && p.col <= k ==> Holds(g, p, color, BackRank(p.col))) &&
    (forall p :: InBound(p) && !(p.row == row && p.col <= k) ==> At(g, p) == At(before, p))
  }

  /** Rows 2 and 7 hold white and black pawns in columns 1..k; every other square is empty. */
  ghost predicate PawnsUpTo(g: Grid, k: int) {
    forall p :: InBound(p) ==>
      if (p.row == 2 || p.row == 7) && p.col <= k then Holds(g, p, if p.row == 2 then White else Black, Pawn)
      else At(g, p) == null
  }

  /** The standard opening: back ranks on rows 1 and 8, pawns on rows 2 and 7, rows 3..6 empty. */
  ghost predicate IsStartingLayout(g: Grid) {
    forall p :: InBound(p) ==>
      (p.row == 1 ==> Holds(g, p, White, BackRank(p.col))) &&
      (p.row == 2 ==> Holds(g, p, White, Pawn)) &&
      (3 <= p.row <= 6 ==> At(g, p) == null) &&
      (p.row == 7 ==> Holds(g, p, Black, Pawn)) &&
      (p.row == 8 ==> Holds(g, p, Black, BackRank(p.col)))
  }

  lemma OpeningLayout(pawns: Grid, whiteDone: Grid, g: Grid)
    requires PawnsUpTo(pawns, 8)
    requires BackRankUpTo(pawns, whiteDone, 1, White, 8)
    requires BackRankUpTo(whiteDone, g, 8, Black, 8)
    ensures IsStartingLayout(g)
  {
  }

  /** The grid of a board with no pieces. */
  function EmptyGrid(): Grid { seq(8, _ => seq(8, _ => null)) }

  class ChessBoard {
    var squares: array2<ChessPiece?>
    /** The board's contents as a value, kept equal to the array by Valid(). */
    ghost var cells: Grid

    ghost predicate Valid()
      reads this, squares
    {
      squares.Length0 == 8 && squares.Length1 == 8 &&
      forall r, c :: 0 <= r < 8 && 0 <= c < 8 ==> squares[r, c] == cells[r][c]
    }

    /** The board's contents as a value, read off the array. */
    function Cells(): (g: Grid)
      reads this, squares
      requires Valid()
      ensures g == cells
    {
      var a := squares;
      var g: Grid := seq(8, r requires 0 <= r < 8 reads a => seq(8, c requires 0 <= c < 8 reads a => a[r, c]));
      GridExtensionality(g, cells);
      g
    }

    /** A new board is empty. */
    constructor ()
      ensures Valid() && fresh(squares)
      ensures cells == EmptyGrid() && forall p :: InBound(p) ==> At(cells, p) == null
    {
      squares := new ChessPiece?[8, 8]((r, c) => null);
      cells := EmptyGrid();
    }

    /**
     * A board holding the pieces of `g`: how a stored game's board is rebuilt when the
     * game is read back.
     */
    constructor FromGrid(g: Grid)
      ensures Valid() && fresh(squares) && cells == g
    {
      squares := new ChessPiece?[8, 8]((r, c) requires 0 <= r < 8 && 0 <= c < 8 => g[r][c]);
      cells := g;
    }

    /** Writes square `position`; null clears it. */
    method AddPiece(position: Position, piece: ChessPiece?)
      requires Valid() && InBound(position)
      modifies this, squares
      ensures Valid() && squares == old(squares)
      ensures forall q :: InBound(q) ==> At(cells, q) == if q == position then piece else old(At(cells, q))
    {
      squares[position.row - 1, position.col - 1] := piece;
      cells := Put(cells, position, piece);
    }

    /** Reads square `position` (null when it is empty). */
    function GetPiece(position: Position): (piece: ChessPiece?)
      reads this, squares
      requires Valid() && InBound(position)
      ensures piece == At(cells, position)
    {
      squares[position.row - 1, position.col - 1]
    }

    /** Replaces the grid by a fresh one holding the opening layout, each piece a new object. */
    method ResetBoard()
      modifies this
      ensures Valid() && fresh(squares)
      ensures IsStartingLayout(cells)
    {
      squares := new ChessPiece?[8, 8]((r, c) => null);
      cells := seq(8, _ => seq(8, _ => null));
      for i := 1 to 9
        invariant Valid() && fresh(squares)
        invariant PawnsUpTo(cells, i - 1)
      {
        PlacePawns(i);
      }
      ghost var pawns := cells;
      PlaceBackRank(1, White);
      ghost var whiteDone := cells;
      PlaceBackRank(8, Black);
      OpeningLayout(pawns, whiteDone, cells);
    }

    /** One pass of the pawn loop: a new white pawn on (2, col) and a new black pawn on (7, col). */
    method PlacePawns(col: int)
      requires Valid() && 1 <= col <= 8 && PawnsUpTo(cells, col - 1)
      modifies this, squares
      ensures Valid() && squares == old(squares)
      ensures PawnsUpTo(cells, col)
    {
      var wp := new ChessPiece(White, Pawn);
      AddPiece(Position(2, col), wp);
      var bp := new ChessPiece(Black, Pawn);
      AddPiece(Position(7, col), bp);
    }

    /** The eight back-rank placements of one side, columns 1 to 8. */
    method PlaceBackRank(row: int, color: TeamColor)
      requires Valid() && (row == 1 || row == 8)
      modifies this, squares
      ensures Valid() && squares == old(squares)
      ensures BackRankUpTo(old(cells), cells, row, color, 8)
    {
      ghost var before := cells;
      PlaceBackRankPiece(before, row, 1, color, Rook);
      PlaceBackRankPiece(before, row, 2, color, Knight);
      PlaceBackRankPiece(before, row, 3, color, Bishop);
      PlaceBackRankPiece(before, row, 4, color, Queen);
      PlaceBackRankPiece(before, row, 5, color, King);
      PlaceBackRankPiece(before, row, 6, color, Bishop);
      PlaceBackRankPiece(before, row, 7, color, Knight);
      PlaceBackRankPiece(before, row, 8, color, Rook);
    }

    /** One back-rank placement: a new piece of `kind` on (row, col). */
    method PlaceBackRankPiece(ghost before: Grid, row: int, col: int, color: TeamColor, kind: PieceType)
      requires Valid() && (row == 1 || row == 8) && 1 <= col <= 8 && kind == BackRank(col)
      requires BackRankUpTo(before, cells, row, color, col - 1)
      modifies this, squares
      ensures Valid() && squares == old(squares)
      ensures BackRankUpTo(before, cells, row, color, col)
    {
      var piece := new ChessPiece(color, kind);
      AddPiece(Position(row, col), piece);
    }

    /**
     * Board equality: never equal to null; otherwise the same object, or the same
     * piece objects square by square (pieces themselves compare by identity).
     */
    function Equals(other: ChessBoard?): (r: bool)
      reads this, squares, other, if other != null then {other.squares} else {}
      requires Valid() && (other != null ==> other.Valid())
      ensures other == null ==> !r
      ensures other != null ==> (r <==> this == other || forall p :: InBound(p) ==> At(cells, p) == At(other.cells, p))
    {
      if this == other then true
      else if other == null then false
      else
        var same := Cells() == other.Cells();
        assert (forall p :: InBound(p) ==> At(cells, p) == At(other.cells, p)) ==> same by {
          if forall p :: InBound(p) ==> At(cells, p) == At(other.cells, p) {
            GridExtensionality(cells, other.cells);
          }
        }
        same
    }

    /** A new board with a new array, filled row by row with the same pieces. */
    method Clone() returns (cloned: ChessBoard)
      requires Valid()
      ensures fresh(cloned) && fresh(cloned.squares) && cloned.Valid()
      ensures cloned.cells == cells
    {
      cloned := new ChessBoard();
      var rows := cloned.squares;
      for i := 0 to 8
        invariant fresh(cloned) && fresh(rows) && cloned.squares == rows
        invariant forall r, c :: 0 <= r < i && 0 <= c < 8 ==> rows[r, c] == squares[r, c]
      {
        for j := 0 to 8
          invariant cloned.squares == rows
          invariant forall r, c :: 0 <= r < i && 0 <= c < 8 ==> rows[r, c] == squares[r, c]
          invariant forall c :: 0 <= c < j ==> rows[i, c] == squares[i, c]
        {
          rows[i, j] := squares[i, j];
        }
      }
      cloned.cells := cells;
    }
  }
}
