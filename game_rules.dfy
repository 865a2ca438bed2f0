/**
 * The rules the game object applies, stated on board values: where `findKing`
 * looks (the first KNIGHT of the colour, in row-major order), which squares hold
 * pieces, what "in check", "checkmate" and "stalemate" mean, and what a move does
 * to the board and the side to move.
 */
module GameRules {
  import opened Wrappers
  import opened ChessTypes
  import opened Board
  import opened Pieces

  /** What executing or making a move can fail with. */
  datatype GameError =
    | InvalidMove(message: string)  // InvalidMoveException
    | CaptureOwnPiece               // RuntimeException("Can not capture the piece")
    | IndexOutOfBounds              // a square outside 1..8 was read
    | NullPointer                   // the moving square was empty but the target was not

  const NoPieceMessage := "move is invalid: No piece at that position"
  const NotTurnMessage := "move is invalid: Not this team turn"
  const InvalidMoveMessage := "Invalid move"

  predicate IsKnightOf(x: ChessPiece?, c: TeamColor) {
    x != null && x.pieceType == Knight && x.pieceColor == c
  }

  predicate OwnPiece(g: Grid, p: Position, c: TeamColor) {
    InBound(p) && At(g, p) != null && At(g, p).pieceColor == c
  }

  // ---------------------------------------------------------------- findKing

  /**
   * The first square at or after (row, col), in the scan over rows 1..8 and
   * columns 1..8, that holds a knight of colour c. Column 9 stands for the end of
   * a row and row 9 for the end of the board.
   */
  function FirstKnightFrom(g: Grid, c: TeamColor, row: int, col: int): Option<Position>
    requires 1 <= row <= 9 && 1 <= col <= 9
    decreases 9 - row, 9 - col
  {
    if row == 9 then None
    else if col == 9 then FirstKnightFrom(g, c, row + 1, 1)
    else if IsKnightOf(At(g, Position(row, col)), c) then Some(Position(row, col))
    else FirstKnightFrom(g, c, row, col + 1)
  }

  /** The square `findKing(c)` reports. */
  function KingSquare(g: Grid, c: TeamColor): Option<Position> {
    FirstKnightFrom(g, c, 1, 1)
  }

  lemma {:induction false} FirstKnightFromSpec(g: Grid, c: TeamColor, row: int, col: int)
    requires 1 <= row <= 9 && 1 <= col <= 9
    ensures match FirstKnightFrom(g, c, row, col)
      case Some(p) =>
        InBound(p) && !Before(p, Position(row, col)) && IsKnightOf(At(g, p), c) &&
        forall q :: InBound(q) && !Before(q, Position(row, col)) && Before(q, p) ==> !IsKnightOf(At(g, q), c)
      case None =>
        forall q :: InBound(q) && !Before(q, Position(row, col)) ==> !IsKnightOf(At(g, q), c)
    decreases 9 - row, 9 - col
  {
    if row < 9 {
      if col == 9 {
        FirstKnightFromSpec(g, c, row + 1, 1);
      } else {
        FirstKnightFromSpec(g, c, row, col + 1);
      }
    }
  }

  /** findKing returns a knight of c with no knight of c before it, or nothing when c has no knight. */
  lemma KingSquareSpec(g: Grid, c: TeamColor)
    ensures match KingSquare(g, c)
      case Some(p) =>
        InBound(p) && IsKnightOf(At(g, p), c) &&
        forall q :: InBound(q) && Before(q, p) ==> !IsKnightOf(At(g, q), c)
      case None =>
        forall q :: InBound(q) ==> !IsKnightOf(At(g, q), c)
  {
    FirstKnightFromSpec(g, c, 1, 1);
  }

  /** A knight of c with no knight of c before it is exactly what findKing reports. */
  lemma KingSquareUnique(g: Grid, c: TeamColor, p: Position)
    requires InBound(p) && IsKnightOf(At(g, p), c)
    requires forall q :: InBound(q) && Before(q, p) ==> !IsKnightOf(At(g, q), c)
    ensures KingSquare(g, c) == Some(p)
  {
    KingSquareSpec(g, c);
    var k := KingSquare(g, c);
    if k.None? {
      assert false;
    } else if k.value != p {
      assert false;
    }
  }

  // ---------------------------------------------------------------- getAllPieces

  /**
   * The occupied squares read before (row, col) by the scan over rows 1..8 and
   * columns 1..8, in scan order.
   */
  function OccupiedBefore(g: Grid, row: int, col: int): seq<Position>
    requires (1 <= row <= 8 && 1 <= col <= 9) || (row == 9 && col == 1)
    decreases row, col
  {
    if col > 1 then
      OccupiedBefore(g, row, col - 1) + (if At(g, Position(row, col - 1)) != null then [Position(row, col - 1)] else [])
    else if row > 1 then OccupiedBefore(g, row - 1, 9)
    else []
  }

  /** The list `getAllPieces` returns. */
  function AllPieces(g: Grid): seq<Position> {
    OccupiedBefore(g, 9, 1)
  }

  lemma {:induction false} OccupiedBeforeSpec(g: Grid, row: int, col: int)
    requires (1 <= row <= 8 && 1 <= col <= 9) || (row == 9 && col == 1)
    ensures forall p :: p in OccupiedBefore(g, row, col) <==> InBound(p) && Before(p, Position(row, col)) && At(g, p) != null
    ensures forall i, j :: 0 <= i < j < |OccupiedBefore(g, row, col)| ==>
      Before(OccupiedBefore(g, row, col)[i], OccupiedBefore(g, row, col)[j])
    decreases row, col
  {
    if col > 1 {
      OccupiedBeforeSpec(g, row, col - 1);
      var prev := OccupiedBefore(g, row, col - 1);
      var here := Position(row, col - 1);
      var all := OccupiedBefore(g, row, col);
      assert all == prev + (if At(g, here) != null then [here] else []);
      forall p
        ensures p in all <==> InBound(p) && Before(p, Position(row, col)) && At(g, p) != null
      {
        assert p in all <==> p in prev || (p == here && At(g, here) != null);
      }
      forall i, j | 0 <= i < j < |all|
        ensures Before(all[i], all[j])
      {
        if j == |prev| {
          assert all[i] in prev;
        }
      }
    } else if row > 1 {
      OccupiedBeforeSpec(g, row - 1, 9);
    }
  }

  /** getAllPieces lists exactly the occupied squares, each once, in row-major order. */
  lemma AllPiecesSpec(g: Grid)
    ensures forall p :: p in AllPieces(g) <==> InBound(p) && At(g, p) != null
    ensures forall i, j :: 0 <= i < j < |AllPieces(g)| ==> Before(AllPieces(g)[i], AllPieces(g)[j])
  {
    OccupiedBeforeSpec(g, 9, 1);
  }

  // ---------------------------------------------------------------- isInCheck

  /** A piece not of colour c stands on p and has a pseudo-legal move ending on `target`. */
  ghost predicate Threatens(others: OtherMoves, g: Grid, c: TeamColor, p: Position, target: Position) {
    InBound(p) && At(g, p) != null && At(g, p).pieceColor != c &&
    exists m :: m in PseudoMoves(others, g, At(g, p), p) && m.end == target
  }

  /** `isInCheck(c)`: some opposing piece can move onto the square findKing reports for c. */
  ghost predicate InCheck(others: OtherMoves, g: Grid, c: TeamColor) {
    KingSquare(g, c).Some? && exists p :: Threatens(others, g, c, p, KingSquare(g, c).value)
  }

  /**
   * Whether a piece on one of the squares of `ps` threatens `target`: the outer
   * loop of isInCheck, over the squares getAllPieces lists.
   */
  ghost function ThreatScan(others: OtherMoves, g: Grid, c: TeamColor, target: Position, ps: seq<Position>): bool {
    if ps == [] then false
    else Threatens(others, g, c, ps[0], target) || ThreatScan(others, g, c, target, ps[1..])
  }

  lemma {:induction false} ThreatScanSpec(others: OtherMoves, g: Grid, c: TeamColor, target: Position, ps: seq<Position>)
    ensures ThreatScan(others, g, c, target, ps) <==> exists p :: p in ps && Threatens(others, g, c, p, target)
  {
    if ps != [] {
      ThreatScanSpec(others, g, c, target, ps[1..]);
      assert forall p :: p in ps <==> p == ps[0] || p in ps[1..];
    }
  }

  /** Scanning the pieces getAllPieces lists decides InCheck: no threatening piece is missed. */
  lemma InCheckByScan(others: OtherMoves, g: Grid, c: TeamColor)
    ensures InCheck(others, g, c) <==>
      KingSquare(g, c).Some? && ThreatScan(others, g, c, KingSquare(g, c).value, AllPieces(g))
  {
    AllPiecesSpec(g);
    if KingSquare(g, c).Some? {
      ThreatScanSpec(others, g, c, KingSquare(g, c).value, AllPieces(g));
    }
  }

  /** Because findKing looks for a knight, a side without knights is never in check. */
  lemma NoKnightNoCheck(others: OtherMoves, g: Grid, c: TeamColor)
    requires forall p :: InBound(p) ==> !IsKnightOf(At(g, p), c)
    ensures !InCheck(others, g, c)
  {
    KingSquareSpec(g, c);
  }

  // ---------------------------------------------------------------- executeMove / makeMove

  /**
   * `executeMove` on a value: read both squares (off-board fails), refuse a capture
   * of one's own colour, then write the mover on the end square and clear the start.
   */
  function Simulate(g: Grid, m: ChessMove): Result<Grid, GameError> {
    if !InBound(m.start) || !InBound(m.end) then Err(IndexOutOfBounds)
    else
      var piece := At(g, m.start);
      var captured := At(g, m.end);
      if captured != null && piece == null then Err(NullPointer)
      else if captured != null && captured.pieceColor == piece.pieceColor then Err(CaptureOwnPiece)
      else Ok(Put(Put(g, m.end, piece), m.start, null))
  }

  /**
   * executeMove fails off the board, and when the end square holds a piece while the
   * start is empty or holds a piece of the same colour; otherwise the mover lands on
   * the end square, the start is cleared and every other square is kept.
   */
  lemma SimulateSpec(g: Grid, m: ChessMove)
    ensures !InBound(m.start) || !InBound(m.end) ==> Simulate(g, m) == Err(IndexOutOfBounds)
    ensures Simulate(g, m).Ok? <==>
      InBound(m.start) && InBound(m.end) &&
      (At(g, m.end) == null || (At(g, m.start) != null && At(g, m.start).pieceColor != At(g, m.end).pieceColor))
    ensures Simulate(g, m).Ok? ==>
      var after := Simulate(g, m).value;
      At(after, m.end) == At(g, m.start) && At(after, m.start) == null &&
      forall q :: InBound(q) && q != m.start && q != m.end ==> At(after, q) == At(g, q)
  {
  }

  /** `makeMove` on a value: the checks in the source's order, then the move and the turn change. */
  function ApplyMove(others: OtherMoves, g: Grid, turn: TeamColor, m: ChessMove): Result<(Grid, TeamColor), GameError> {
    if !InBound(m.start) then Err(IndexOutOfBounds)
    else
      var piece := At(g, m.start);
      if piece == null then Err(InvalidMove(NoPieceMessage))
      else if piece.pieceColor != turn then Err(InvalidMove(NotTurnMessage))
      else if m !in PseudoMoves(others, g, piece, m.start) then Err(InvalidMove(InvalidMoveMessage))
      else
        match Simulate(g, m)
        case Err(e) => Err(e)
        case Ok(after) => Ok((after, Opponent(turn)))
  }

  /**
   * `validMoves(start)` on a value: reading the square fails off the board; an empty
   * square gives null (None); a piece of the side not to move gives an empty list.
   */
  function ValidMovesOf(others: OtherMoves, g: Grid, turn: TeamColor, start: Position): Result<Option<seq<ChessMove>>, GameError> {
    if !InBound(start) then Err(IndexOutOfBounds)
    else if At(g, start) == null then Ok(None)
    else if At(g, start).pieceColor != turn then Ok(Some([]))
    else Ok(Some(PseudoMoves(others, g, At(g, start), start)))
  }

  /**
   * makeMove accepts a move exactly when validMoves lists it for its start square
   * and executing it does not fail: the ownership and turn checks before the
   * lookup only choose the error message.
   */
  lemma MakeMoveUsesValidMoves(others: OtherMoves, g: Grid, turn: TeamColor, m: ChessMove)
    ensures ApplyMove(others, g, turn, m).Ok? <==>
      (match ValidMovesOf(others, g, turn, m.start)
       case Ok(Some(ms)) => m in ms
       case _ => false) && Simulate(g, m).Ok?
  {
  }

  /**
   * A move is accepted exactly when its start holds a piece of the side to move, it
   * is one of that piece's pseudo-legal moves (no self-check filter), and executing
   * it does not fail.
   */
  lemma ApplyMoveAccepts(others: OtherMoves, g: Grid, turn: TeamColor, m: ChessMove)
    ensures ApplyMove(others, g, turn, m).Ok? <==>
      OwnPiece(g, m.start, turn) && m in PseudoMoves(others, g, At(g, m.start), m.start) && Simulate(g, m).Ok?
  {
  }

  /**
   * An accepted move puts the moved piece itself (no promotion) on the end square,
   * empties the start square, leaves every other square alone and passes the turn.
   */
  lemma ApplyMoveEffect(others: OtherMoves, g: Grid, turn: TeamColor, m: ChessMove)
    requires ApplyMove(others, g, turn, m).Ok?
    ensures var (after, next) := ApplyMove(others, g, turn, m).value;
      next == Opponent(turn) && next != turn &&
      At(after, m.end) == At(g, m.start) && At(g, m.start) != null && At(g, m.start).pieceColor == turn &&
      At(after, m.start) == null &&
      forall q :: InBound(q) && q != m.start && q != m.end ==> At(after, q) == At(g, q)
  {
  }

  // ---------------------------------------------------------------- isInCheckmate

  /**
   * Tries the moves of `ms` in order on copies of `g`: a move whose execution fails
   * ends the scan with that failure; a move after which c is not in check ends it
   * with false; when every move leaves c in check the answer is true.
   */
  ghost function EscapeScan(others: OtherMoves, g: Grid, c: TeamColor, ms: seq<ChessMove>): Result<bool, GameError> {
    if ms == [] then Ok(true)
    else
      match Simulate(g, ms[0])
      case Err(e) => Err(e)
      case Ok(after) => if !InCheck(others, after, c) then Ok(false) else EscapeScan(others, g, c, ms[1..])
  }

  /** EscapeScan over the moves of each piece of colour c on the squares of `ps`, in order. */
  ghost function MateScan(others: OtherMoves, g: Grid, c: TeamColor, ps: seq<Position>): Result<bool, GameError> {
    if ps == [] then Ok(true)
    else if OwnPiece(g, ps[0], c) then
      match EscapeScan(others, g, c, PseudoMoves(others, g, At(g, ps[0]), ps[0]))
      case Ok(true) => MateScan(others, g, c, ps[1..])
      case other => other
    else MateScan(others, g, c, ps[1..])
  }

  /** `isInCheckmate(c)`: false when not in check, otherwise the scan over all of c's pieces. */
  ghost function Checkmate(others: OtherMoves, g: Grid, c: TeamColor): Result<bool, GameError> {
    if !InCheck(others, g, c) then Ok(false) else MateScan(others, g, c, AllPieces(g))
  }

  /** Every move of `ms` executes without failure and leaves c in check. */
  ghost predicate AllStayInCheck(others: OtherMoves, g: Grid, c: TeamColor, ms: seq<ChessMove>) {
    forall m :: m in ms ==> Simulate(g, m).Ok? && InCheck(others, Simulate(g, m).value, c)
  }

  lemma {:induction false} EscapeScanSpec(others: OtherMoves, g: Grid, c: TeamColor, ms: seq<ChessMove>)
    ensures EscapeScan(others, g, c, ms) == Ok(true) <==> AllStayInCheck(others, g, c, ms)
    ensures (forall m :: m in ms ==> Simulate(g, m).Ok?) ==> EscapeScan(others, g, c, ms).Ok?
  {
    if ms != [] {
      EscapeScanSpec(others, g, c, ms[1..]);
      assert forall m :: m in ms <==> m == ms[0] || m in ms[1..];
    }
  }

  lemma {:induction false} MateScanSpec(others: OtherMoves, g: Grid, c: TeamColor, ps: seq<Position>)
    ensures MateScan(others, g, c, ps) == Ok(true) <==>
      forall p :: p in ps && OwnPiece(g, p, c) ==> AllStayInCheck(others, g, c, PseudoMoves(others, g, At(g, p), p))
    ensures (forall p, m :: p in ps && OwnPiece(g, p, c) && m in PseudoMoves(others, g, At(g, p), p) ==> Simulate(g, m).Ok?)
      ==> MateScan(others, g, c, ps).Ok?
  {
    if ps != [] {
      MateScanSpec(others, g, c, ps[1..]);
      assert forall p :: p in ps <==> p == ps[0] || p in ps[1..];
      if OwnPiece(g, ps[0], c) {
        EscapeScanSpec(others, g, c, PseudoMoves(others, g, At(g, ps[0]), ps[0]));
      }
    }
  }

  /**
   * Checkmate holds exactly when c is in check and every pseudo-legal move of every
   * piece of c, executed on a copy, succeeds and still leaves c in check.
   */
  lemma CheckmateSpec(others: OtherMoves, g: Grid, c: TeamColor)
    ensures !InCheck(others, g, c) ==> Checkmate(others, g, c) == Ok(false)
    ensures Checkmate(others, g, c) == Ok(true) <==>
      InCheck(others, g, c) &&
      forall p :: OwnPiece(g, p, c) ==> AllStayInCheck(others, g, c, PseudoMoves(others, g, At(g, p), p))
  {
    MateScanSpec(others, g, c, AllPieces(g));
    AllPiecesSpec(g);
  }

  /** When no move of c's pieces fails to execute, the checkmate query does not fail either. */
  lemma CheckmateDefined(others: OtherMoves, g: Grid, c: TeamColor)
    requires forall p, m :: OwnPiece(g, p, c) && m in PseudoMoves(others, g, At(g, p), p) ==> Simulate(g, m).Ok?
    ensures Checkmate(others, g, c).Ok?
  {
    MateScanSpec(others, g, c, AllPieces(g));
    AllPiecesSpec(g);
  }

  // ---------------------------------------------------------------- isInStalemate

  /** `isInStalemate(c)`: not in check, and no piece of c has a pseudo-legal move; whose turn it is plays no part. */
  ghost predicate Stalemate(others: OtherMoves, g: Grid, c: TeamColor) {
    !InCheck(others, g, c) &&
    forall p :: OwnPiece(g, p, c) ==> PseudoMoves(others, g, At(g, p), p) == []
  }

  /** Whether a piece of colour c on one of the squares of `ps` has a move: the loop of isInStalemate. */
  ghost function MovableScan(others: OtherMoves, g: Grid, c: TeamColor, ps: seq<Position>): bool {
    if ps == [] then false
    else (OwnPiece(g, ps[0], c) && PseudoMoves(others, g, At(g, ps[0]), ps[0]) != []) || MovableScan(others, g, c, ps[1..])
  }

  lemma {:induction false} MovableScanSpec(others: OtherMoves, g: Grid, c: TeamColor, ps: seq<Position>)
    ensures MovableScan(others, g, c, ps) <==>
      exists p :: p in ps && OwnPiece(g, p, c) && PseudoMoves(others, g, At(g, p), p) != []
  {
    if ps != [] {
      MovableScanSpec(others, g, c, ps[1..]);
      assert forall p :: p in ps <==> p == ps[0] || p in ps[1..];
    }
  }

  /** Scanning the pieces getAllPieces lists decides Stalemate. */
  lemma StalemateByScan(others: OtherMoves, g: Grid, c: TeamColor)
    ensures Stalemate(others, g, c) <==> !InCheck(others, g, c) && !MovableScan(others, g, c, AllPieces(g))
  {
    AllPiecesSpec(g);
    MovableScanSpec(others, g, c, AllPieces(g));
  }

  /** A pawn always yields a move, so a side that still has a pawn is never in stalemate. */
  lemma PawnPreventsStalemate(others: OtherMoves, g: Grid, c: TeamColor, p: Position)
    requires OwnPiece(g, p, c) && At(g, p).pieceType == Pawn
    ensures !Stalemate(others, g, c)
  {
    assert PseudoMoves(others, g, At(g, p), p) != [];
  }

  // ---------------------------------------------------------------- the opening position

  /** In the opening layout findKing reports the queen-side knights, b1 for white and b8 for black. */
  lemma OpeningKingSquares(g: Grid)
    requires IsStartingLayout(g)
    ensures KingSquare(g, White) == Some(Position(1, 2))
    ensures KingSquare(g, Black) == Some(Position(8, 2))
  {
    assert Holds(g, Position(1, 2), White, BackRank(2));
    assert Holds(g, Position(8, 2), Black, BackRank(2));
    forall q | InBound(q) && Before(q, Position(1, 2))
      ensures !IsKnightOf(At(g, q), White)
    {
      assert q == Position(1, 1);
    }
    KingSquareUnique(g, White, Position(1, 2));
    forall q | InBound(q) && Before(q, Position(8, 2))
      ensures !IsKnightOf(At(g, q), Black)
    {
      if q.row == 8 {
        assert q == Position(8, 1);
      }
    }
    KingSquareUnique(g, Black, Position(8, 2));
  }

  /**
   * From the opening, white may push a pawn one square, and black may not move
   * while it is white's turn.
   */
  lemma OpeningMoves(others: OtherMoves, g: Grid, col: int)
    requires IsStartingLayout(g) && 1 <= col <= 8
    ensures ApplyMove(others, g, White, ChessMove(Position(2, col), Position(3, col), None)).Ok?
    ensures ApplyMove(others, g, White, ChessMove(Position(7, col), Position(6, col), None)) == Err(InvalidMove(NotTurnMessage))
  {
    assert Holds(g, Position(2, col), White, Pawn);
    assert At(g, Position(3, col)) == null;
    assert Holds(g, Position(7, col), Black, Pawn);
  }
}
