# Chess engine and game server, modelled in Dafny

This project models the rules engine and the server-side state machines of a
two-player online chess service:

- **Board** (`ChessBoard`): an 8×8 array of optional pieces, with rows and
  columns numbered 1..8. It is written in place (`addPiece`), read
  (`getPiece`), reset to the opening layout (`resetBoard`), compared square
  by square (`equals`) and deep-copied row by row (`clone`).
- **Move generation** (`ChessPiece.pieceMoves`) dispatches on the piece's
  kind. The pawn rule is modelled exactly as written: a stray empty
  statement after the occupancy test makes the forward move unconditional,
  and the capture squares are computed but never added. The helpers for the
  other five kinds do not appear in the repository. Every operation that
  generates moves therefore takes them as a parameter `others`.
- **Game** (`ChessGame`): a board and the side to move.
  - `validMoves` filters by turn only.
  - `makeMove` validates the move, relocates the piece and passes the turn.
  - `isInCheck`, `isInCheckmate` and `isInStalemate` scan the board with
    the source's nested loops. Checkmate executes each candidate move on a
    cloned game.
  - `findKing` looks for the colour's first KNIGHT in row-major order; the
    model keeps this, and "check" means what it means in the code.
- **Seat assignment** (`JoinGameService.joinGame`): a game's WHITE or BLACK
  seat is claimed only when it is empty.
- **User table** (`UserDAO`): a map from username to record.
- **WebSocket endpoint** (`WebSocketServerEndpoint`):
  - a table binding each open session to an auth token and a game id;
  - the routing of CONNECT, MAKE_MOVE, RESIGN and LEAVE commands;
  - the validation chain in front of the engine;
  - broadcasts to the sessions of one game.

  Messages sent are appended to an outbox. Broadcasts are proved to reach
  each selected session exactly once.

The imperative parts are classes whose methods are proved against functions
on board values (module `GameRules`):

- `ChessBoard` keeps an `array2`, and `ChessGame` keeps a board object and a
  turn.
- The auth and game tables are classes holding maps. They stand for the SQL
  tables behind the `AuthDAO` and `GameDAO` interfaces: a lookup of a
  missing row gives `None`, and an `UPDATE` of a missing id changes nothing.
- Exceptions become values. `GameError` lists what a move or a checkmate
  query can fail with, and the endpoint turns each failure into the error
  message the source sends.

Files: `wrappers.dfy` (Option, Result), `chess_types.dfy`, `chess_board.dfy`,
`chess_piece.dfy`, `game_rules.dfy`, `game.dfy`, `data_access.dfy`,
`join_game.dfy`, `endpoint.dfy`.

## Where the code departs from standard chess

The code implements fewer rules than standard chess, and the server keeps less
game state than a finished game needs. The model follows the code:

- A pawn has one forward move and no capture, double step or promotion.
- Moves are not filtered for self-check.
- The king is located by searching for a knight.
- A new game starts on an empty board.
- Stalemate does not consult whose turn it is.
- The game has no game-over state, and resigning records nothing in the game.
- Move and resignation notices exclude the sender. The load-game broadcast
  and the game-over notices include it.

## Model

| member | source | states |
|---|---|---|
| ChessTypes.ChessPiece.constructor | shared/src/main/java/chess/ChessPiece.java:17-20 | a new piece object has the given colour and kind |
| ChessTypes.InBound | shared/src/main/java/chess/ChessPiece.java:78-80 | a square is on the board when both coordinates are in 1..8, and such a square indexes a row and a column of the 8×8 grid |
| ChessTypes.Opponent | shared/src/main/java/chess/ChessGame.java:87-91 | the side to move after a turn change is always the other colour |
| Board.ChessBoard.constructor | shared/src/main/java/chess/ChessBoard.java:7-11 | a new board has a fresh 8×8 array and every square empty |
| Board.ChessBoard.AddPiece | shared/src/main/java/chess/ChessBoard.java:13-15 | only on-board squares can be written; the written square then holds the given piece (null clears it) and every other square is unchanged; the array object stays the same |
| Board.ChessBoard.GetPiece | shared/src/main/java/chess/ChessBoard.java:17-19 | only on-board squares can be read; the result is the board's content at that square |
| Board.ChessBoard.ResetBoard | shared/src/main/java/chess/ChessBoard.java:21-49 | the board gets a fresh array holding the opening layout: back ranks in rook-knight-bishop-queen-king-bishop-knight-rook order on rows 1 (white) and 8 (black), pawns on rows 2 and 7, rows 3–6 empty |
| Board.ChessBoard.PlacePawns | shared/src/main/java/chess/ChessBoard.java:25-28 | one pass of the pawn loop extends "white pawns on row 2, black pawns on row 7 in columns 1..k, all else empty" from k−1 to k |
| Board.ChessBoard.PlaceBackRank | shared/src/main/java/chess/ChessBoard.java:31-48 | the eight placements put one side's back rank on its row in canonical order and leave every other square as it was; each placement is one PlaceBackRankPiece call, which extends the placed prefix of the rank by one new piece |
| Board.OpeningLayout | shared/src/main/java/chess/ChessBoard.java:21-49 | the pawn loop followed by the white and the black back-rank placements yields exactly the opening layout |
| Board.ChessBoard.Equals | shared/src/main/java/chess/ChessBoard.java:51-61 | a board never equals null; otherwise two boards are equal iff they are the same object or every square holds the same piece object (pieces compare by identity) |
| Board.ChessBoard.Clone | shared/src/main/java/chess/ChessBoard.java:68-80 | the copy is a new board with a new array (later writes to it cannot reach the original) holding the same contents |
| Pieces.PawnMove | shared/src/main/java/chess/ChessPiece.java:83-99 | the pawn helper appends exactly the one forward move to the list it is given |
| Pieces.PieceMoves | shared/src/main/java/chess/ChessPiece.java:59-76 | the result starts empty and is exactly what the helper for the piece's kind produces; the board is not modified |
| Pieces.PawnDirection | shared/src/main/java/chess/ChessPiece.java:84-94 | a pawn yields exactly one move, from its own square to one row forward (+1 for white, −1 for black) in the same column, with no promotion |
| Pieces.PawnIgnoresBoard | shared/src/main/java/chess/ChessPiece.java:90-94 | a pawn's moves do not depend on the board: the forward move is produced even onto an occupied or off-board square |
| Pieces.PawnNeverCapturesDiagonally | shared/src/main/java/chess/ChessPiece.java:95-97 | no pawn move changes column: the diagonal targets are never added |
| GameRules.FirstKnightFromSpec | shared/src/main/java/chess/ChessGame.java:104-115 | the scan from (row, col) finds a knight of the colour at or after that square with none between, or reports none when there is none from there on |
| GameRules.KingSquareSpec | shared/src/main/java/chess/ChessGame.java:104-115 | findKing returns an on-board knight of the colour with no knight of that colour earlier in row-major order, or null when the colour has no knight |
| GameRules.KingSquareUnique | shared/src/main/java/chess/ChessGame.java:104-115 | conversely, the first knight of the colour in row-major order is what findKing returns |
| GameRules.OccupiedBeforeSpec | shared/src/main/java/chess/ChessGame.java:117-129 | the scan up to (row, col) lists exactly the occupied squares before it, in strictly increasing row-major order |
| GameRules.AllPiecesSpec | shared/src/main/java/chess/ChessGame.java:117-129 | getAllPieces lists exactly the occupied squares, each once, in row-major order |
| GameRules.ThreatScanSpec | shared/src/main/java/chess/ChessGame.java:138-148 | the outer loop of isInCheck finds a threat iff some listed square holds a piece of the other colour with a move ending on the target |
| GameRules.InCheckByScan | shared/src/main/java/chess/ChessGame.java:136-150 | scanning getAllPieces decides check: a side is in check iff findKing returns a square and some opposing piece has a pseudo-legal move ending there |
| GameRules.NoKnightNoCheck | shared/src/main/java/chess/ChessGame.java:104-150 | a side with no knight is never in check, whatever attacks its king |
| GameRules.SimulateSpec | shared/src/main/java/chess/ChessGame.java:94-102 | Simulate, the value form of executeMove, fails with an index error off the board, and when the end square is occupied while the start is empty or holds the same colour; otherwise the mover is on the end square, the start is empty and every other square is kept |
| GameRules.MakeMoveUsesValidMoves | shared/src/main/java/chess/ChessGame.java:71-92 | makeMove accepts a move iff validMoves of its start square lists it and executing it does not fail |
| GameRules.ApplyMoveAccepts | shared/src/main/java/chess/ChessGame.java:71-92 | a move is accepted iff its start holds a piece of the side to move, it is one of that piece's pseudo-legal moves (no self-check filter) and executing it does not fail |
| GameRules.ApplyMoveEffect | shared/src/main/java/chess/ChessGame.java:84-102 | an accepted move puts the moved piece itself on the end square (no promotion), empties the start, leaves every other square unchanged and passes the turn to the other side |
| GameRules.EscapeScanSpec | shared/src/main/java/chess/ChessGame.java:166-173 | trying a piece's moves on clones reports "no escape" iff every move executes and leaves the side in check, and cannot fail when no execution fails |
| GameRules.MateScanSpec | shared/src/main/java/chess/ChessGame.java:162-176 | the outer checkmate loop reports true iff every move of every listed own piece executes and leaves the side in check |
| GameRules.CheckmateSpec | shared/src/main/java/chess/ChessGame.java:158-177 | isInCheckmate is false when not in check; it is true iff the side is in check and every pseudo-legal move of every own piece, executed on a copy, still leaves it in check |
| GameRules.CheckmateDefined | shared/src/main/java/chess/ChessGame.java:158-177 | when no move of the side's pieces fails to execute, isInCheckmate returns a value rather than throwing |
| GameRules.MovableScanSpec | shared/src/main/java/chess/ChessGame.java:190-199 | the stalemate loop finds a movable piece iff some listed square holds an own piece with a non-empty move list |
| GameRules.StalemateByScan | shared/src/main/java/chess/ChessGame.java:186-200 | isInStalemate is true iff the side is not in check and no piece of its colour has a pseudo-legal move, independent of whose turn it is |
| GameRules.PawnPreventsStalemate | shared/src/main/java/chess/ChessGame.java:186-200 | a side that still has a pawn is never in stalemate, because a pawn always yields a move |
| GameRules.OpeningKingSquares | shared/src/main/java/chess/ChessGame.java:104-115 | in the opening layout findKing reports b1 for white and b8 for black, the queen-side knights |
| GameRules.OpeningMoves | shared/src/main/java/chess/ChessGame.java:71-92 | from the opening, any white pawn may step one square forward with white to move, and moving a black pawn is refused as "Not this team turn" |
| Game.EndsOn | shared/src/main/java/chess/ChessGame.java:142-146 | the inner loop of isInCheck returns true iff some move ends on the king square, and never when findKing found nothing |
| Game.ChessGame.constructor | shared/src/main/java/chess/ChessGame.java:17-20 | a new game has a fresh empty board (not the opening layout) and white to move |
| Game.ChessGame.SetTeamTurn | shared/src/main/java/chess/ChessGame.java:34-36 | the side to move becomes the given colour and the board is untouched |
| Game.ChessGame.ValidMoves | shared/src/main/java/chess/ChessGame.java:53-63 | off-board start fails; an empty square gives null, a piece of the side not to move an empty list, otherwise exactly its pseudo-legal moves |
| Game.ChessGame.MakeMove | shared/src/main/java/chess/ChessGame.java:71-92 | an accepted move changes the board and the turn as ApplyMoveEffect describes; a refused one reports its error (no piece, wrong turn, not a listed move, or an execution failure) with board and turn unchanged |
| Game.ChessGame.ExecuteMove | shared/src/main/java/chess/ChessGame.java:94-102 | the board becomes Simulate's result (characterised by SimulateSpec); a capture of the mover's own colour, an off-board square or an empty start facing a piece fails and leaves the board as it was |
| Game.ChessGame.FindKing | shared/src/main/java/chess/ChessGame.java:104-115 | the nested row/column loop returns the first knight of the colour in row-major order (KingSquareSpec) |
| Game.ChessGame.GetAllPieces | shared/src/main/java/chess/ChessGame.java:117-129 | the nested loop returns the occupied squares in row-major order (AllPiecesSpec) |
| Game.ChessGame.IsInCheck | shared/src/main/java/chess/ChessGame.java:136-150 | the result is true iff findKing finds a square and an opposing piece has a move ending there (InCheckByScan) |
| Game.ChessGame.IsInCheckmate | shared/src/main/java/chess/ChessGame.java:158-177 | the result is the checkmate answer characterised by CheckmateSpec, or the first execution failure met in the scan; the game itself is not changed |
| Game.ChessGame.TryMoves | shared/src/main/java/chess/ChessGame.java:166-173 | each move is executed on a fresh clone; the first failure or the first move leaving the side out of check ends the loop (EscapeScanSpec) |
| Game.ChessGame.IsInStalemate | shared/src/main/java/chess/ChessGame.java:186-200 | the result is the stalemate answer characterised by StalemateByScan |
| Game.ChessGame.Clone | shared/src/main/java/chess/ChessGame.java:220-229 | the copy is a new game with a new board and array, the same contents and the same side to move |
| DataAccess.UserDAO.constructor | server/src/main/java/dataaccess/UserDAO.java:9 | a new user table is empty |
| DataAccess.UserDAO.InsertUser | server/src/main/java/dataaccess/UserDAO.java:11-13 | afterwards getUser of the username returns the inserted record (replacing any earlier one), other usernames are unaffected, and the key set gains just that name |
| DataAccess.UserDAO.GetUser | server/src/main/java/dataaccess/UserDAO.java:15-17 | a record is returned iff one was filed under the name, and it carries that username; otherwise null |
| DataAccess.UserDAO.ClearUsers | server/src/main/java/dataaccess/UserDAO.java:19-21 | afterwards getUser returns null for every username |
| DataAccess.AuthStore.GetAuth | server/src/main/java/dataaccess/SQLAuthDAO.java:9-22 | a row is returned iff the token is known, and it carries that token |
| DataAccess.GameStore.GetGame | server/src/main/java/dataaccess/SQLGameDAO.java:17-34 | a row is returned iff the id is known, and it carries that id |
| DataAccess.GameStore.UpdateGame | server/src/main/java/dataaccess/SQLGameDAO.java:59-72 | the row with the record's id is replaced in every column; an unknown id changes nothing; the update is recorded once |
| JoinGame.ClaimSeatSpec | server/src/main/java/service/JoinGameService.java:29-39 | ClaimSeat, the seat decision, grants a seat iff the colour is "WHITE" with an empty white seat or "BLACK" with an empty black seat; the new row differs only in that seat, which holds the caller; any other request is refused as "Color already taken" |
| JoinGame.SeatsAreNeverTaken | server/src/main/java/service/JoinGameService.java:31-39 | a granted request never changes a seat that was already held |
| JoinGame.JoinGameService.constructor | server/src/main/java/service/JoinGameService.java:13-16 | the service keeps the two stores it is given |
| JoinGame.JoinGameService.JoinGame | server/src/main/java/service/JoinGameService.java:18-42 | an unknown token fails "Unauthorized", an unknown game "Game not found", a taken seat "Color already taken", each writing nothing; otherwise the claimed row is written exactly once |
| JoinGame.JoinKeepsSeatsAndState | server/src/main/java/service/JoinGameService.java:18-42 | a successful join keeps the game's id, name, board state and every seat already held |
| Endpoint.DeliverOneMore | server/src/main/java/server/WebSocketServerEndpoint.java:254-258 | sending the message to one more, not yet reached session keeps delivery exactly-once |
| Endpoint.DeliveredCount | server/src/main/java/server/WebSocketServerEndpoint.java:250-259 | an exactly-once delivery sends exactly as many messages as there are recipients |
| Endpoint.WebSocketServerEndpoint.constructor | server/src/main/java/server/WebSocketServerEndpoint.java:22-26 | the endpoint starts with no bound sessions and nothing sent |
| Endpoint.WebSocketServerEndpoint.OnOpen | server/src/main/java/server/WebSocketServerEndpoint.java:47-50 | the session is bound to token "" and game −1, so it is not authenticated; nothing is sent |
| Endpoint.WebSocketServerEndpoint.OnClose | server/src/main/java/server/WebSocketServerEndpoint.java:77-80 | the session's binding is removed and nothing else changes |
| Endpoint.WebSocketServerEndpoint.OnError | server/src/main/java/server/WebSocketServerEndpoint.java:83-86 | a present session's binding is removed and the rest of the table is unchanged; nothing is sent |
| Endpoint.WebSocketServerEndpoint.IsAuthenticated | server/src/main/java/server/WebSocketServerEndpoint.java:239-242 | a session is authenticated when it is bound with a non-empty token; an authenticated session is always in the table |
| Endpoint.WebSocketServerEndpoint.SendErrorMessage | server/src/main/java/server/WebSocketServerEndpoint.java:280-289 | exactly one error goes to the session; an empty text becomes "Error: An unexpected error occurred." |
| Endpoint.WebSocketServerEndpoint.SendLoadGame | server/src/main/java/server/WebSocketServerEndpoint.java:245-248 | exactly one load-game message with the given record goes to the session |
| Endpoint.WebSocketServerEndpoint.Broadcast | server/src/main/java/server/WebSocketServerEndpoint.java:254-258 | the message goes exactly once to each session bound to the game other than the excluded one, and to no other session; the table is unchanged |
| Endpoint.WebSocketServerEndpoint.BroadcastNotification | server/src/main/java/server/WebSocketServerEndpoint.java:250-259 | the notice reaches exactly the sessions of the game except the excluded one, once each |
| Endpoint.WebSocketServerEndpoint.BroadcastLoadGame | server/src/main/java/server/WebSocketServerEndpoint.java:261-272 | the stored record reaches every session bound to the game, the sender included, once each |
| Endpoint.WebSocketServerEndpoint.HandleConnect | server/src/main/java/server/WebSocketServerEndpoint.java:88-126 | a missing token or game id, an unknown token or an unknown game sends one specific error to the requester and leaves the table alone; success binds the session to (token, game id), authenticating it, sends the game to the requester only and the join notice (with the seat colour) to the game's other sessions |
| Endpoint.WebSocketServerEndpoint.OnlyTheMoverMayMove | server/src/main/java/server/WebSocketServerEndpoint.java:132-173 | a move request passes only for an authenticated session bound to the command's game, with a known token whose user is the player of the side to move in the stored game, and it carries the command's move |
| Endpoint.WebSocketServerEndpoint.HandleMakeMove | server/src/main/java/server/WebSocketServerEndpoint.java:129-209 | each failed check sends its own error and changes neither the table nor the game store; a request that passes is played as PlayMove states |
| Endpoint.WebSocketServerEndpoint.Rebuild | server/src/main/java/server/WebSocketServerEndpoint.java:157-161 | a stored game without state is played as a new game (empty board, white to move); otherwise the stored board and turn, on a fresh board built by ChessBoard.FromGrid holding exactly the stored grid |
| Endpoint.WebSocketServerEndpoint.PlayMove | server/src/main/java/server/WebSocketServerEndpoint.java:175-203 | a move the engine refuses sends "Error: " plus its message (or the generic error) and writes nothing; an accepted one stores the new board and turn exactly once, sends the stored game to every session of the game, the move to the others, then the game-over notices |
| Endpoint.WebSocketServerEndpoint.AnnounceGameOver | server/src/main/java/server/WebSocketServerEndpoint.java:198-208 | checkmate of the side now to move is announced to the whole game; otherwise stalemate is; a failing checkmate query sends "Error: Unable to process the move." to the mover |
| Endpoint.WebSocketServerEndpoint.HandleResign | server/src/main/java/server/WebSocketServerEndpoint.java:213-224 | an unauthenticated session gets one error; otherwise the resignation reaches the game's other sessions once each; the table and the game store are unchanged |
| Endpoint.WebSocketServerEndpoint.HandleLeave | server/src/main/java/server/WebSocketServerEndpoint.java:226-237 | an unauthenticated session gets one error; otherwise its binding is removed and the leave notice reaches the game's other sessions once each |
| Endpoint.WebSocketServerEndpoint.OnMessage | server/src/main/java/server/WebSocketServerEndpoint.java:53-74 | a missing command or command type gets one error and nothing else; CONNECT, MAKE_MOVE, RESIGN and LEAVE each do exactly what HandleConnect, HandleMakeMove, HandleResign and HandleLeave state (the same error, table, store and broadcast clauses), and only a move can write the game store |

## Left out

- The rook, knight, bishop, queen and king move helpers do not appear in the repository. They are the parameter `others`, a function from board, piece and square to moves. Nothing is proved about them beyond what every kind shares.
- ChessPosition.java and ChessMove.java are not part of this model. Positions and moves are modelled as values with structural equality, which is what `validMoves(...).contains(move)` and the end-square comparison in `isInCheck` rely on.
- Two `ChessGame` constructors stand for steps the source does by other means. `Copy` stands for the field copy of `super.clone()`. `FromState` stands for Gson rebuilding a stored game, which in the source creates new piece objects.
- The accessors `getBoard`, `setBoard` and `getTeamTurn` are left out; fields are read directly. Aliasing a board between two games through `setBoard` is not modelled.
- The `AssertionError` branches of both `clone` methods cannot be reached and are left out.
- `hashCode` of the board is left out.
- Board.ChessBoard.Equals: the `getClass()` comparison is left out; the model's argument is always a board or null, so an object of another class cannot be passed.
- Endpoint I/O is not modelled:
  - JSON parsing by Gson: `OnMessage` receives the parsed command, or None. The "Invalid WebSocket message format." reply to unparsable text is left out.
  - logging;
  - `isOpen`, `getRemote().sendString`, and the swallowing of send failures. A send is an append to the outbox.
- Endpoint.WebSocketServerEndpoint.OnError: with no session the source throws a `NullPointerException` from its logging call before the null check is reached. The model keeps only the fact that the table is unchanged, and returns normally.
- Endpoint.WebSocketServerEndpoint.OnMessage: the "Unknown command type" default is left out, because the four command types are all handled.
- Notification texts are not modelled. A notice is a datatype carrying what the text mentions: the username and seat colour, the move, the losing colour, or the token. `move.toString()` formatting is left out.
- The session table is a static `ConcurrentHashMap` shared by all endpoint instances. The model is one endpoint handling one message at a time, and the table's iteration order is left unspecified.
- `DataAccessException` and other store failures are not modelled; the stores always answer. Because of that, the catch-all "Error: An unexpected error occurred." of `handleConnect` is never produced by the model. The same goes for the DAO failures behind `handleMakeMove`'s "Error: Unable to process the move.".
- JoinGame.JoinGameService.JoinGame: a null `playerColor` throws a `NullPointerException` in the source. The model's colour is always a string.
- The auth and game stores are maps. The SQL statements, serialization and connection handling behind them are not modelled, and neither are the stores' other operations (insert, delete, list, clear).
- `validateMove` in the endpoint is an unused placeholder and is left out.
