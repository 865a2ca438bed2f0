/**
 * The WebSocket endpoint: a table binding each open session to an auth token and
 * a game id, the routing of client commands, and the broadcasts to the sessions
 * of one game. Messages sent are appended to an outbox in send order.
 */
module Endpoint {
  import opened Wrappers
  import opened ChessTypes
  import opened Board
  import opened Pieces
  import opened GameRules
  import opened Game
  import opened DataAccess

  /** A client connection; sessions are told apart by identity. */
  datatype Session = Session(id: nat)

  /** What the table binds a session to: an auth token ("" before connecting) and a game id (-1 before). */
  datatype SessionInfo = SessionInfo(authToken: string, gameID: int)

  datatype CommandType = Connect | MakeMove | Leave | Resign

  /** A parsed client command; a field missing from the message is None. */
  datatype UserGameCommand = UserGameCommand(
    commandType: Option<CommandType>,
    authToken: Option<string>,
    gameID: Option<int>,
    move: Option<ChessMove>)

  /** The notifications the server sends, by what they announce. */
  datatype Notice =
    | Joined(username: string, asWhite: bool)
    | MoveMade(move: ChessMove)
    | CheckmateNotice(loser: TeamColor)
    | StalemateNotice
    | Resigned(authToken: string)
    | Left(authToken: string)

  datatype ServerMessage =
    | LoadGame(game: Option<GameData>)
    | Error(errorMessage: string)
    | Notification(notice: Notice)

  /** One message sent to one session. */
  datatype Outgoing = Outgoing(to: Session, message: ServerMessage)

  const UnexpectedErrorMessage := "Error: An unexpected error occurred."
  const InvalidCommandMessage := "Invalid or missing commandType in WebSocket message."
  const TokenRequiredMessage := "Error: AuthToken is required to connect."
  const GameIDRequiredMessage := "Error: GameID is required to connect."
  const InvalidTokenMessage := "Error: Invalid AuthToken provided."
  const InvalidGameMessage := "Error: Invalid GameID provided."
  const NotConnectedMessage := "Error: Unauthorized action. Please connect first."
  const NotConnectedPlainMessage := "Unauthorized action. Please connect first."
  const WrongGameMessage := "Error: Invalid GameID."
  const BadAuthMessage := "Error: Invalid auth token."
  const GameNotFoundMessage := "Error: Game not found."
  const NotYourTurnMessage := "Error: It is not your turn."
  const CannotProcessMessage := "Error: Unable to process the move."

  /** The sessions bound to game `gameID`, except `exclude`. */
  function Recipients(sessions: map<Session, SessionInfo>, gameID: int, exclude: Option<Session>): set<Session> {
    set s | s in sessions && sessions[s].gameID == gameID && exclude != Some(s)
  }

  /** The sessions the messages of `sent` go to. */
  ghost function Targets(sent: seq<Outgoing>): set<Session> {
    set k | 0 <= k < |sent| :: sent[k].to
  }

  /** `sent` carries `message` to each session of `recipients` exactly once, and to no other session. */
  ghost predicate DeliveredOnce(sent: seq<Outgoing>, recipients: set<Session>, message: ServerMessage) {
    (forall k :: 0 <= k < |sent| ==> sent[k].message == message) &&
    (forall k, l :: 0 <= k < l < |sent| ==> sent[k].to != sent[l].to) &&
    Targets(sent) == recipients
  }

  /** Sending `message` to one more session keeps the delivery exactly-once. */
  lemma DeliverOneMore(sent: seq<Outgoing>, recipients: set<Session>, message: ServerMessage, s: Session)
    requires DeliveredOnce(sent, recipients, message) && s !in recipients
    ensures DeliveredOnce(sent + [Outgoing(s, message)], recipients + {s}, message)
  {
    var more := sent + [Outgoing(s, message)];
    forall t
      ensures t in Targets(more) <==> t in recipients + {s}
    {
      if t in Targets(more) {
        var k :| 0 <= k < |more| && more[k].to == t;
        if k < |sent| {
          assert sent[k].to == t;
        }
      }
      if t in recipients {
        var k :| 0 <= k < |sent| && sent[k].to == t;
        assert more[k].to == t;
      }
      if t == s {
        assert more[|sent|].to == t;
      }
    }
  }

  /** An exactly-once delivery sends as many messages as there are recipients. */
  lemma {:induction false} DeliveredCount(sent: seq<Outgoing>, recipients: set<Session>, message: ServerMessage)
    requires DeliveredOnce(sent, recipients, message)
    ensures |sent| == |recipients|
  {
    if sent != [] {
      var init := sent[..|sent| - 1];
      var last := sent[|sent| - 1];
      assert Targets(init) == recipients - {last.to} by {
        forall t
          ensures t in Targets(init) <==> t in recipients - {last.to}
        {
          if t in Targets(init) {
            var k :| 0 <= k < |init| && init[k].to == t;
            assert sent[k].to == t;
          }
          if t in recipients - {last.to} {
            var k :| 0 <= k < |sent| && sent[k].to == t;
            assert k != |sent| - 1;
            assert init[k].to == t;
          }
        }
      }
      assert last.to in Targets(sent);
      DeliveredCount(init, recipients - {last.to}, message);
    }
  }

  /** The turn and board a stored game is read back as; a game never played reads as a new one. */
  function StateOf(game: GameData): GameState {
    match game.game
    case Some(state) => state
    case None => GameState(EmptyGrid(), White)
  }

  /** What handleMakeMove has established when its checks pass. */
  datatype MoveRequest = MoveRequest(username: string, game: GameData, move: ChessMove)

  /** The message sent for a failed makeMove: the InvalidMoveException's text, otherwise the generic one. */
  function MoveErrorMessage(e: GameError): string {
    match e
    case InvalidMove(message) => "Error: " + message
    case _ => CannotProcessMessage
  }

  /**
   * After a move: an error to the mover when the checkmate query failed; the
   * checkmate notice to the whole game; otherwise the stalemate notice to the whole
   * game; otherwise nothing.
   */
  ghost predicate GameOverAnnounced(
    ending: seq<Outgoing>, mover: Session, everyone: set<Session>,
    checkmate: Result<bool, GameError>, stalemate: bool, side: TeamColor)
  {
    if checkmate.Err? then ending == [Outgoing(mover, Error(CannotProcessMessage))]
    else if checkmate.value then DeliveredOnce(ending, everyone, Notification(CheckmateNotice(side)))
    else if stalemate then DeliveredOnce(ending, everyone, Notification(StalemateNotice))
    else ending == []
  }

  class WebSocketServerEndpoint {
    /** The move rules of the non-pawn pieces, for the games the endpoint rebuilds. */
    const others: OtherMoves
    const authDAO: AuthStore
    const gameDAO: GameStore
    var activeSessions: map<Session, SessionInfo>
    /** Every message sent so far, in order. */
    var outbox: seq<Outgoing>

    ghost predicate Valid()
      reads this, authDAO, gameDAO
    {
      authDAO.Valid() && gameDAO.Valid()
    }

    constructor (others: OtherMoves, authDAO: AuthStore, gameDAO: GameStore)
      ensures this.others == others && this.authDAO == authDAO && this.gameDAO == gameDAO
      ensures activeSessions == map[] && outbox == []
    {
      this.others := others;
      this.authDAO := authDAO;
      this.gameDAO := gameDAO;
      activeSessions := map[];
      outbox := [];
    }

    /** A new connection is bound to no token and no game, so it is not yet authenticated. */
    method OnOpen(session: Session)
      modifies this
      ensures activeSessions == old(activeSessions)[session := SessionInfo("", -1)]
      ensures outbox == old(outbox) && !IsAuthenticated(session)
    {
      activeSessions := activeSessions[session := SessionInfo("", -1)];
    }

    method OnClose(session: Session)
      modifies this
      ensures activeSessions == old(activeSessions) - {session} && outbox == old(outbox)
      ensures session !in activeSessions
    {
      activeSessions := activeSessions - {session};
    }

    /** A transport error unbinds the session, when there is one. */
    method OnError(session: Option<Session>)
      modifies this
      ensures activeSessions == if session.Some? then old(activeSessions) - {session.value} else old(activeSessions)
      ensures outbox == old(outbox)
    {
      if session.Some? {
        activeSessions := activeSessions - {session.value};
      }
    }

    /** Bound, with a non-empty token: an authenticated session is always in the table. */
    predicate IsAuthenticated(session: Session)
      reads this
      ensures IsAuthenticated(session) ==> session in activeSessions
    {
      session in activeSessions && activeSessions[session].authToken != ""
    }

    /** An error to one session; an empty text is replaced by the generic one. */
    method SendErrorMessage(session: Session, errorMessage: string)
      modifies this
      ensures activeSessions == old(activeSessions)
      ensures outbox == old(outbox) + [Outgoing(session, Error(if errorMessage == "" then UnexpectedErrorMessage else errorMessage))]
    {
      var text := if errorMessage == "" then UnexpectedErrorMessage else errorMessage;
      outbox := outbox + [Outgoing(session, Error(text))];
    }

    method SendLoadGame(session: Session, game: Option<GameData>)
      modifies this
      ensures activeSessions == old(activeSessions)
      ensures outbox == old(outbox) + [Outgoing(session, LoadGame(game))]
    {
      outbox := outbox + [Outgoing(session, LoadGame(game))];
    }

    /**
     * The loop over the session table: `message` goes to every session bound to
     * `gameID` other than `exclude`, once each, in the table's (unspecified) order.
     */
    method Broadcast(message: ServerMessage, gameID: int, exclude: Option<Session>) returns (ghost sent: seq<Outgoing>)
      modifies this
      ensures activeSessions == old(activeSessions)
      ensures outbox == old(outbox) + sent
      ensures DeliveredOnce(sent, Recipients(activeSessions, gameID, exclude), message)
    {
      sent := [];
      var pending := activeSessions.Keys;
      while pending != {}
        invariant activeSessions == old(activeSessions) && pending <= activeSessions.Keys
        invariant outbox == old(outbox) + sent
        invariant DeliveredOnce(sent, Recipients(activeSessions, gameID, exclude) - pending, message)
        decreases pending
      {
        var session :| session in pending;
        ghost var done := Recipients(activeSessions, gameID, exclude) - pending;
        if activeSessions[session].gameID == gameID && exclude != Some(session) {
          DeliverOneMore(sent, done, message, session);
          outbox := outbox + [Outgoing(session, message)];
          sent := sent + [Outgoing(session, message)];
        }
        pending := pending - {session};
        assert Recipients(activeSessions, gameID, exclude) - pending ==
          if activeSessions[session].gameID == gameID && exclude != Some(session) then done + {session} else done;
      }
    }

    method BroadcastNotification(notice: Notice, gameID: int, exclude: Option<Session>) returns (ghost sent: seq<Outgoing>)
      modifies this
      ensures activeSessions == old(activeSessions)
      ensures outbox == old(outbox) + sent
      ensures DeliveredOnce(sent, Recipients(activeSessions, gameID, exclude), Notification(notice))
    {
      sent := Broadcast(Notification(notice), gameID, exclude);
    }

    /** The stored game, as read now, to every session of the game, the sender included. */
    method BroadcastLoadGame(gameID: int) returns (ghost sent: seq<Outgoing>)
      requires Valid()
      modifies this
      ensures activeSessions == old(activeSessions)
      ensures outbox == old(outbox) + sent
      ensures DeliveredOnce(sent, Recipients(activeSessions, gameID, None), LoadGame(gameDAO.GetGame(gameID)))
    {
      var game := gameDAO.GetGame(gameID);
      sent := Broadcast(LoadGame(game), gameID, None);
    }

    /** The checks of handleConnect, in order: the command's token and game id present, both known. */
    function ConnectCheck(command: UserGameCommand): Result<(AuthData, GameData), string>
      reads this, authDAO, gameDAO
      requires Valid()
    {
      if command.authToken.None? || command.authToken.value == "" then Err(TokenRequiredMessage)
      else if command.gameID.None? then Err(GameIDRequiredMessage)
      else
        match authDAO.GetAuth(command.authToken.value)
        case None => Err(InvalidTokenMessage)
        case Some(auth) =>
          match gameDAO.GetGame(command.gameID.value)
          case None => Err(InvalidGameMessage)
          case Some(game) => Ok((auth, game))
    }

    /**
     * A refused connect sends one error to the requester and leaves the table alone.
     * An accepted one binds the session to (token, game id), which authenticates it,
     * sends the game to the requester only, and announces the player to the other
     * sessions of the game.
     */
    method HandleConnect(session: Session, command: UserGameCommand) returns (ghost sent: seq<Outgoing>)
      requires Valid()
      modifies this
      ensures Valid()
      ensures match ConnectCheck(command)
        case Err(message) =>
          activeSessions == old(activeSessions) && outbox == old(outbox) + [Outgoing(session, Error(message))]
        case Ok((auth, game)) =>
          activeSessions == old(activeSessions)[session := SessionInfo(auth.authToken, game.gameID)] &&
          IsAuthenticated(session) &&
          outbox == old(outbox) + [Outgoing(session, LoadGame(Some(game)))] + sent &&
          DeliveredOnce(sent, Recipients(activeSessions, game.gameID, Some(session)),
            Notification(Joined(auth.username, Some(auth.username) == game.whiteUsername)))
    {
      sent := [];
      if command.authToken.None? || command.authToken.value == "" {
        SendErrorMessage(session, TokenRequiredMessage);
        return;
      }
      if command.gameID.None? {
        SendErrorMessage(session, GameIDRequiredMessage);
        return;
      }
      var authData := authDAO.GetAuth(command.authToken.value);
      if authData.None? {
        SendErrorMessage(session, InvalidTokenMessage);
        return;
      }
      var gameData := gameDAO.GetGame(command.gameID.value);
      if gameData.None? {
        SendErrorMessage(session, InvalidGameMessage);
        return;
      }
      var auth := authData.value;
      var game := gameData.value;
      activeSessions := activeSessions[session := SessionInfo(auth.authToken, game.gameID)];
      SendLoadGame(session, gameData);
      sent := BroadcastNotification(Joined(auth.username, Some(auth.username) == game.whiteUsername), game.gameID, Some(session));
    }

    /**
     * The checks of handleMakeMove, in order: the session is bound and authenticated,
     * bound to the command's game, the command's token is known, the game exists,
     * the caller is the player of the side to move, and the command carries a move.
     */
    function MoveRequestCheck(session: Session, command: UserGameCommand): Result<MoveRequest, string>
      reads this, authDAO, gameDAO
      requires Valid()
    {
      if session !in activeSessions || !IsAuthenticated(session) then Err(NotConnectedMessage)
      else if command.gameID.None? then Err(CannotProcessMessage)
      else if activeSessions[session].gameID != command.gameID.value then Err(WrongGameMessage)
      else
        var auth := if command.authToken.Some? then authDAO.GetAuth(command.authToken.value) else None;
        if auth.None? then Err(BadAuthMessage)
        else
          match gameDAO.GetGame(command.gameID.value)
          case None => Err(GameNotFoundMessage)
          case Some(game) =>
            var currentPlayer := if StateOf(game).turn == White then game.whiteUsername else game.blackUsername;
            if Some(auth.value.username) != currentPlayer then Err(NotYourTurnMessage)
            else if command.move.None? then Err(CannotProcessMessage)
            else Ok(MoveRequest(auth.value.username, game, command.move.value))
    }

    /**
     * A move is only ever played for an authenticated session bound to the game it
     * names, with a known token whose user is the player of the side to move in the
     * stored game.
     */
    lemma OnlyTheMoverMayMove(session: Session, command: UserGameCommand)
      requires Valid() && MoveRequestCheck(session, command).Ok?
      ensures var request := MoveRequestCheck(session, command).value;
        var state := StateOf(request.game);
        IsAuthenticated(session) &&
        command.gameID == Some(request.game.gameID) && activeSessions[session].gameID == request.game.gameID &&
        request.game.gameID in gameDAO.games && gameDAO.games[request.game.gameID] == request.game &&
        command.authToken.Some? && command.authToken.value in authDAO.auths &&
        authDAO.auths[command.authToken.value].username == request.username &&
        Some(request.username) == (if state.turn == White then request.game.whiteUsername else request.game.blackUsername) &&
        command.move == Some(request.move)
    {
    }

    /**
     * A refused request sends one error to the mover and changes nothing else; an
     * accepted one is played as PlayMove states.
     */
    method HandleMakeMove(session: Session, command: UserGameCommand)
      returns (ghost loads: seq<Outgoing>, ghost notes: seq<Outgoing>, ghost ending: seq<Outgoing>)
      requires Valid()
      modifies this, gameDAO
      ensures Valid() && activeSessions == old(activeSessions)
      ensures old(MoveRequestCheck(session, command)).Err? ==>
        gameDAO.games == old(gameDAO.games) && gameDAO.updates == old(gameDAO.updates) &&
        outbox == old(outbox) + [Outgoing(session, Error(old(MoveRequestCheck(session, command)).error))]
      ensures old(MoveRequestCheck(session, command)).Ok? ==>
        var request := old(MoveRequestCheck(session, command)).value;
        Played(old(gameDAO.games), old(gameDAO.updates), old(outbox), session, request, loads, notes, ending)
    {
      loads, notes, ending := [], [], [];
      var check := MoveRequestCheck(session, command);
      if check.Err? {
        SendErrorMessage(session, check.error);
        return;
      }
      loads, notes, ending := PlayMove(session, check.value);
    }

    /**
     * What playing an accepted request leaves behind: a refused move sends one error
     * to the mover and writes nothing. A legal one stores the game with the new board
     * and turn, sends the stored game to every session of the game, announces the
     * move to the others, and then announces checkmate, else stalemate, of the side
     * now to move.
     */
    ghost predicate Played(
      gamesBefore: map<int, GameData>, updatesBefore: seq<GameData>, outboxBefore: seq<Outgoing>,
      session: Session, request: MoveRequest,
      loads: seq<Outgoing>, notes: seq<Outgoing>, ending: seq<Outgoing>)
      reads this, gameDAO
    {
      var state := StateOf(request.game);
      match ApplyMove(others, state.board, state.turn, request.move)
      case Err(e) =>
        gameDAO.games == gamesBefore && gameDAO.updates == updatesBefore &&
        outbox == outboxBefore + [Outgoing(session, Error(MoveErrorMessage(e)))]
      case Ok((after, next)) =>
        var stored := request.game.(game := Some(GameState(after, next)));
        var everyone := Recipients(activeSessions, request.game.gameID, None);
        gameDAO.games == gamesBefore[request.game.gameID := stored] &&
        gameDAO.updates == updatesBefore + [stored] &&
        outbox == outboxBefore + loads + notes + ending &&
        DeliveredOnce(loads, everyone, LoadGame(Some(stored))) &&
        DeliveredOnce(notes, Recipients(activeSessions, request.game.gameID, Some(session)), Notification(MoveMade(request.move))) &&
        GameOverAnnounced(ending, session, everyone, Checkmate(others, after, next), Stalemate(others, after, next), next)
    }

    /** The game object for a stored row: a new game when the row has no state yet. */
    method Rebuild(game: GameData) returns (chessGame: ChessGame)
      ensures fresh(chessGame) && fresh(chessGame.board) && fresh(chessGame.board.squares) && chessGame.Valid()
      ensures chessGame.others == others
      ensures chessGame.board.cells == StateOf(game).board && chessGame.nowTurn == StateOf(game).turn
    {
      if game.game.None? {
        chessGame := new ChessGame(others);
      } else {
        chessGame := new ChessGame.FromState(others, game.game.value.board, game.game.value.turn);
      }
    }

    /** Plays an accepted request, as Played states. */
    method PlayMove(session: Session, request: MoveRequest)
      returns (ghost loads: seq<Outgoing>, ghost notes: seq<Outgoing>, ghost ending: seq<Outgoing>)
      requires Valid() && request.game.gameID in gameDAO.games
      modifies this, gameDAO
      ensures Valid() && activeSessions == old(activeSessions)
      ensures Played(old(gameDAO.games), old(gameDAO.updates), old(outbox), session, request, loads, notes, ending)
    {
      loads, notes, ending := [], [], [];
      var game := Rebuild(request.game);
      var failure := game.MakeMove(request.move);
      if failure.Some? {
        SendErrorMessage(session, MoveErrorMessage(failure.value));
        return;
      }
      var cells := game.board.Cells();
      var stored := GameData(request.game.gameID, request.game.whiteUsername, request.game.blackUsername,
        request.game.gameName, Some(GameState(cells, game.nowTurn)));
      gameDAO.UpdateGame(stored);
      loads := BroadcastLoadGame(request.game.gameID);
      notes := BroadcastNotification(MoveMade(request.move), request.game.gameID, Some(session));
      ending := AnnounceGameOver(session, game, request.game.gameID);
    }

    /** The game-over tail of handleMakeMove, for the side now to move in `game`. */
    method AnnounceGameOver(session: Session, game: ChessGame, gameID: int) returns (ghost ending: seq<Outgoing>)
      requires game.Valid()
      modifies this
      ensures activeSessions == old(activeSessions)
      ensures outbox == old(outbox) + ending
      ensures GameOverAnnounced(ending, session, Recipients(activeSessions, gameID, None),
        Checkmate(game.others, game.board.cells, game.nowTurn), Stalemate(game.others, game.board.cells, game.nowTurn), game.nowTurn)
    {
      var checkmate := game.IsInCheckmate(game.nowTurn);
      if checkmate.Err? {
        SendErrorMessage(session, CannotProcessMessage);
        ending := [Outgoing(session, Error(CannotProcessMessage))];
      } else if checkmate.value {
        ending := BroadcastNotification(CheckmateNotice(game.nowTurn), gameID, None);
      } else {
        var stalemate := game.IsInStalemate(game.nowTurn);
        if stalemate {
          ending := BroadcastNotification(StalemateNotice, gameID, None);
        } else {
          ending := [];
        }
      }
    }

    /** An unauthenticated resign gets an error; otherwise the other sessions of the game are told. */
    method HandleResign(session: Session) returns (ghost sent: seq<Outgoing>)
      modifies this
      ensures activeSessions == old(activeSessions)
      ensures !IsAuthenticated(session) ==> outbox == old(outbox) + [Outgoing(session, Error(NotConnectedPlainMessage))]
      ensures IsAuthenticated(session) ==>
        outbox == old(outbox) + sent &&
        DeliveredOnce(sent, Recipients(activeSessions, activeSessions[session].gameID, Some(session)),
          Notification(Resigned(activeSessions[session].authToken)))
    {
      sent := [];
      if !IsAuthenticated(session) {
        SendErrorMessage(session, NotConnectedPlainMessage);
        return;
      }
      var sessionInfo := activeSessions[session];
      sent := BroadcastNotification(Resigned(sessionInfo.authToken), sessionInfo.gameID, Some(session));
    }

    /** An unauthenticated leave gets an error; otherwise the binding is removed and the rest of the game told. */
    method HandleLeave(session: Session) returns (ghost sent: seq<Outgoing>)
      modifies this
      ensures !old(IsAuthenticated(session)) ==>
        activeSessions == old(activeSessions) && outbox == old(outbox) + [Outgoing(session, Error(NotConnectedPlainMessage))]
      ensures old(IsAuthenticated(session)) ==>
        activeSessions == old(activeSessions) - {session} &&
        outbox == old(outbox) + sent &&
        DeliveredOnce(sent, Recipients(activeSessions, old(activeSessions[session].gameID), Some(session)),
          Notification(Left(old(activeSessions[session].authToken))))
    {
      sent := [];
      if !IsAuthenticated(session) {
        SendErrorMessage(session, NotConnectedPlainMessage);
        return;
      }
      var sessionInfo := activeSessions[session];
      activeSessions := activeSessions - {session};
      sent := BroadcastNotification(Left(sessionInfo.authToken), sessionInfo.gameID, Some(session));
    }

    /**
     * Routes a parsed command to its handler: a missing command or command type gets
     * an error and nothing else; each command type does what its handler states
     * (`sent` is the connect, resign or leave broadcast, and `loads`, `notes` and
     * `ending` are what a move sends).
     */
    method OnMessage(session: Session, command: Option<UserGameCommand>)
      returns (ghost sent: seq<Outgoing>, ghost loads: seq<Outgoing>, ghost notes: seq<Outgoing>, ghost ending: seq<Outgoing>)
      requires Valid()
      modifies this, gameDAO
      ensures Valid()
      ensures command.None? || command.value.commandType.None? ==>
        activeSessions == old(activeSessions) && gameDAO.games == old(gameDAO.games) && gameDAO.updates == old(gameDAO.updates) &&
        outbox == old(outbox) + [Outgoing(session, Error(InvalidCommandMessage))]
      ensures command.Some? && command.value.commandType == Some(Connect) ==>
        gameDAO.games == old(gameDAO.games) && gameDAO.updates == old(gameDAO.updates) &&
        match old(ConnectCheck(command.value))
        case Err(message) =>
          activeSessions == old(activeSessions) && outbox == old(outbox) + [Outgoing(session, Error(message))]
        case Ok((auth, game)) =>
          activeSessions == old(activeSessions)[session := SessionInfo(auth.authToken, game.gameID)] &&
          IsAuthenticated(session) &&
          outbox == old(outbox) + [Outgoing(session, LoadGame(Some(game)))] + sent &&
          DeliveredOnce(sent, Recipients(activeSessions, game.gameID, Some(session)),
            Notification(Joined(auth.username, Some(auth.username) == game.whiteUsername)))
      ensures command.Some? && command.value.commandType == Some(MakeMove) ==>
        activeSessions == old(activeSessions) &&
        match old(MoveRequestCheck(session, command.value))
        case Err(message) =>
          gameDAO.games == old(gameDAO.games) && gameDAO.updates == old(gameDAO.updates) &&
          outbox == old(outbox) + [Outgoing(session, Error(message))]
        case Ok(request) =>
          Played(old(gameDAO.games), old(gameDAO.updates), old(outbox), session, request, loads, notes, ending)
      ensures command.Some? && command.value.commandType == Some(Resign) ==>
        activeSessions == old(activeSessions) && gameDAO.games == old(gameDAO.games) && gameDAO.updates == old(gameDAO.updates) &&
        if !IsAuthenticated(session) then outbox == old(outbox) + [Outgoing(session, Error(NotConnectedPlainMessage))]
        else
          outbox == old(outbox) + sent &&
          DeliveredOnce(sent, Recipients(activeSessions, activeSessions[session].gameID, Some(session)),
            Notification(Resigned(activeSessions[session].authToken)))
      ensures command.Some? && command.value.commandType == Some(Leave) ==>
        gameDAO.games == old(gameDAO.games) && gameDAO.updates == old(gameDAO.updates) &&
        if !old(IsAuthenticated(session)) then
          activeSessions == old(activeSessions) && outbox == old(outbox) + [Outgoing(session, Error(NotConnectedPlainMessage))]
        else
          activeSessions == old(activeSessions) - {session} &&
          outbox == old(outbox) + sent &&
          DeliveredOnce(sent, Recipients(activeSessions, old(activeSessions[session].gameID), Some(session)),
            Notification(Left(old(activeSessions[session].authToken))))
    {
      sent, loads, notes, ending := [], [], [], [];
      if command.None? || command.value.commandType.None? {
        SendErrorMessage(session, InvalidCommandMessage);
        return;
      }
      match command.value.commandType.value
      case Connect =>
        sent := HandleConnect(session, command.value);
      case MakeMove =>
        loads, notes, ending := HandleMakeMove(session, command.value);
      case Resign =>
        sent := HandleResign(session);
      case Leave =>
        sent := HandleLeave(session);
    }
  }
}
