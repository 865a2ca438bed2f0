/**
 * The server's records and stores: the in-memory user table, and the auth and
 * game tables as maps standing for the SQL tables behind the AuthDAO and GameDAO
 * interfaces.
 */
module DataAccess {
  import opened Wrappers
  import opened ChessTypes

  datatype UserData = UserData(username: string, password: string, email: string)

  datatype AuthData = AuthData(authToken: string, username: string)

  /** A stored game: the board and the side to move, as a serialized game holds them. */
  datatype GameState = GameState(board: Grid, turn: TeamColor)

  /** A game row. An empty seat is None (SQL NULL); a game never played has no state. */
  datatype GameData = GameData(
    gameID: int,
    whiteUsername: Option<string>,
    blackUsername: Option<string>,
    gameName: string,
    game: Option<GameState>)

  /** The user table: a map from username to the record inserted under it. */
  class UserDAO {
    var userTable: map<string, UserData>

    /** Every record is filed under its own username. */
    ghost predicate Valid()
      reads this
    {
      forall name :: name in userTable ==> userTable[name].username == name
    }

    constructor ()
      ensures Valid() && userTable == map[]
    {
      userTable := map[];
    }

    /** Files `user` under its username, replacing an earlier record with that name. */
    method InsertUser(user: UserData)
      requires Valid()
      modifies this
      ensures Valid()
      ensures GetUser(user.username) == Some(user)
      ensures forall name :: name != user.username ==> GetUser(name) == old(GetUser(name))
      ensures userTable.Keys == old(userTable.Keys) + {user.username}
    {
      userTable := userTable[user.username := user];
    }

    /** The record filed under `username`, or None (null) when there is none. */
    function GetUser(username: string): (user: Option<UserData>)
      reads this
      requires Valid()
      ensures user.Some? <==> username in userTable
      ensures user.Some? ==> user.value.username == username && user.value == userTable[username]
    {
      if username in userTable then Some(userTable[username]) else None
    }

    method ClearUsers()
      modifies this
      ensures Valid() && userTable == map[]
      ensures forall name :: GetUser(name) == None
    {
      userTable := map[];
    }
  }

  /** The auth table: token to (token, username). */
  class AuthStore {
    var auths: map<string, AuthData>

    ghost predicate Valid()
      reads this
    {
      forall token :: token in auths ==> auths[token].authToken == token
    }

    /** The row for `authToken`, or None (null) when the token is unknown. */
    function GetAuth(authToken: string): (auth: Option<AuthData>)
      reads this
      requires Valid()
      ensures auth.Some? <==> authToken in auths
      ensures auth.Some? ==> auth.value.authToken == authToken
    {
      if authToken in auths then Some(auths[authToken]) else None
    }
  }

  /** The game table: id to row, plus the history of update statements issued. */
  class GameStore {
    var games: map<int, GameData>
    /** Every record passed to UpdateGame, in order. */
    ghost var updates: seq<GameData>

    ghost predicate Valid()
      reads this
    {
      forall id :: id in games ==> games[id].gameID == id
    }

    /** The row with id `gameID`, or None (null) when there is none. */
    function GetGame(gameID: int): (game: Option<GameData>)
      reads this
      requires Valid()
      ensures game.Some? <==> gameID in games
      ensures game.Some? ==> game.value.gameID == gameID
    {
      if gameID in games then Some(games[gameID]) else None
    }

    /**
     * An UPDATE of the row whose id is `game.gameID`: every column is replaced; when
     * there is no such row nothing changes.
     */
    method UpdateGame(game: GameData)
      requires Valid()
      modifies this
      ensures Valid() && updates == old(updates) + [game]
      ensures games == if game.gameID in old(games) then old(games)[game.gameID := game] else old(games)
    {
      if game.gameID in games {
        games := games[game.gameID := game];
      }
      updates := updates + [game];
    }
  }
}
