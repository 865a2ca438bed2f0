/**
 * Joining a game: the caller's token is looked up, the game is looked up, and
 * the requested seat is claimed only when it is empty; the game row is written
 * once, after every check has passed.
 */
module JoinGame {
  import opened Wrappers
  import opened DataAccess

  const UnauthorizedMessage := "Unauthorized"
  const GameNotFoundMessage := "Game not found"
  const ColorTakenMessage := "Color already taken: This color is already assigned to another player."

  /** The seat decision: the game row with `username` in the requested seat, or the refusal. */
  function ClaimSeat(game: GameData, playerColor: string, username: string): Result<GameData, string> {
    if playerColor == "WHITE" && game.whiteUsername.None? then
      Ok(GameData(game.gameID, Some(username), game.blackUsername, game.gameName, game.game))
    else if playerColor == "BLACK" && game.blackUsername.None? then
      Ok(GameData(game.gameID, game.whiteUsername, Some(username), game.gameName, game.game))
    else
      Err(ColorTakenMessage)
  }

  /**
   * A seat is granted exactly when the colour names an empty seat; the granted row
   * differs from the old one only in that seat, which now holds the caller.
   */
  lemma ClaimSeatSpec(game: GameData, playerColor: string, username: string)
    ensures ClaimSeat(game, playerColor, username).Ok? <==>
      (playerColor == "WHITE" && game.whiteUsername.None?) || (playerColor == "BLACK" && game.blackUsername.None?)
    ensures ClaimSeat(game, playerColor, username).Err? ==> ClaimSeat(game, playerColor, username).error == ColorTakenMessage
    ensures match ClaimSeat(game, playerColor, username)
      case Ok(r) =>
        r.gameID == game.gameID && r.gameName == game.gameName && r.game == game.game &&
        if playerColor == "WHITE" then r.whiteUsername == Some(username) && r.blackUsername == game.blackUsername
        else r.blackUsername == Some(username) && r.whiteUsername == game.whiteUsername
      case Err(_) => true
  {
  }

  /** An occupied seat is never overwritten: a player who holds a seat keeps it. */
  lemma SeatsAreNeverTaken(game: GameData, playerColor: string, username: string)
    requires ClaimSeat(game, playerColor, username).Ok?
    ensures game.whiteUsername.Some? ==> ClaimSeat(game, playerColor, username).value.whiteUsername == game.whiteUsername
    ensures game.blackUsername.Some? ==> ClaimSeat(game, playerColor, username).value.blackUsername == game.blackUsername
  {
  }

  class JoinGameService {
    const gameDAO: GameStore
    const authDAO: AuthStore

    constructor (gameDAO: GameStore, authDAO: AuthStore)
      ensures this.gameDAO == gameDAO && this.authDAO == authDAO
    {
      this.gameDAO := gameDAO;
      this.authDAO := authDAO;
    }

    ghost predicate Valid()
      reads this, gameDAO, authDAO
    {
      gameDAO.Valid() && authDAO.Valid()
    }

    /** What joinGame does with the stores as they are: the row to write, or the exception's message. */
    function Outcome(gameID: int, playerColor: string, authToken: string): Result<GameData, string>
      reads this, gameDAO, authDAO
      requires Valid()
    {
      match authDAO.GetAuth(authToken)
      case None => Err(UnauthorizedMessage)
      case Some(auth) =>
        match gameDAO.GetGame(gameID)
        case None => Err(GameNotFoundMessage)
        case Some(game) => ClaimSeat(game, playerColor, auth.username)
    }

    /**
     * The checks in order: a known token, an existing game, an empty requested seat.
     * Only a request that passes all three writes the row, exactly once; a refused
     * one writes nothing.
     */
    method JoinGame(gameID: int, playerColor: string, authToken: string) returns (failure: Option<string>)
      requires Valid()
      modifies gameDAO
      ensures Valid()
      ensures match old(Outcome(gameID, playerColor, authToken))
        case Ok(updated) =>
          failure == None && gameDAO.updates == old(gameDAO.updates) + [updated] &&
          gameDAO.games == old(gameDAO.games)[gameID := updated]
        case Err(message) =>
          failure == Some(message) && gameDAO.updates == old(gameDAO.updates) &&
          gameDAO.games == old(gameDAO.games)
    {
      var authData := authDAO.GetAuth(authToken);
      if authData.None? {
        return Some(UnauthorizedMessage);
      }
      var game := gameDAO.GetGame(gameID);
      if game.None? {
        return Some(GameNotFoundMessage);
      }
      var updatedGame := ClaimSeat(game.value, playerColor, authData.value.username);
      if updatedGame.Err? {
        return Some(updatedGame.error);
      }
      gameDAO.UpdateGame(updatedGame.value);
      return None;
    }
  }

  /**
   * Joining never moves a player out of a seat: after a successful join every seat
   * that was held is still held by the same player, and the game state is untouched.
   */
  lemma JoinKeepsSeatsAndState(service: JoinGameService, gameID: int, playerColor: string, authToken: string)
    requires service.Valid() && gameID in service.gameDAO.games
    requires service.Outcome(gameID, playerColor, authToken).Ok?
    ensures var before := service.gameDAO.games[gameID];
      var after := service.Outcome(gameID, playerColor, authToken).value;
      after.gameID == gameID && after.game == before.game && after.gameName == before.gameName &&
      (before.whiteUsername.Some? ==> after.whiteUsername == before.whiteUsername) &&
      (before.blackUsername.Some? ==> after.blackUsername == before.blackUsername)
  {
    var auth := service.authDAO.GetAuth(authToken).value;
    ClaimSeatSpec(service.gameDAO.games[gameID], playerColor, auth.username);
    SeatsAreNeverTaken(service.gameDAO.games[gameID], playerColor, auth.username);
  }
}
