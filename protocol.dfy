/**
 * The state enumerations and the logical message contract between the
 * server and its clients. Serialisation (`JSON.parse`/`JSON.stringify`) is
 * not modelled: a message is the value before it is serialised.
 */
module Protocol {
  import opened Wrappers
  import opened Board
  import opened InputBuffer

  type Id = string

  /** `NUM_CLIENTS_PER_GAME`, a game's `requiredClients`. */
  const NUM_CLIENTS_PER_GAME: nat := 2

  /** `CLIENT_STATE_ENUM`. */
  datatype ClientState = Lobby | InGame

  /** `GAME_STATE_ENUM`. */
  datatype GameState = WaitingForPlayers | InProgress | Abandoned

  /** `Server.getGameMessage`: a game's public summary. */
  datatype GameSummary = GameSummary(id: Id, name: string, state: GameState, population: nat)

  /** `Game.getStateDiff`: board dimensions, tiles, turn and selection. */
  datatype StateDiff = StateDiff(width: int, height: int, board: Grid, turn: int, selected: Selection)

  /** Messages from server to client. `data` of a game update is `false`
      (here `None`) unless the game is in progress. */
  datatype Message =
    | CreatedClient(id: Id, name: string)
    | CreatedGame(id: Id, name: string)
    | LobbyUpdate(population: nat, clientNames: seq<string>, games: seq<GameSummary>)
    | GameUpdate(clientNames: seq<string>, data: Option<StateDiff>, game: GameSummary)

  /** The `config` of a `create-game` message; `bot` is the truth value of `config.bot`. */
  datatype Config = Config(bot: bool)

  /** An inbound message after parsing: `{type, clientId?, gameId?, name?, config?, input?}`.
      An absent `config` is `None`. */
  datatype Inbound = Inbound(
    kind: string,
    clientId: Option<Id>,
    gameId: Option<Id>,
    name: string,
    config: Option<Config>,
    input: RawInput)
}
