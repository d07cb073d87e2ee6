/**
 * The registry of socketServer.js: the `Server` class, which owns the list of
 * connected clients and the list of games and moves both through their state
 * machines (a client between LOBBY and IN_GAME, a game between
 * WAITING_FOR_PLAYERS, IN_PROGRESS and ABANDONED).
 */
module Registry {
  import opened Wrappers
  import opened Seqs
  import opened Board
  import opened InputBuffer
  import opened Protocol
  import opened Net
  import opened Session
  import Engine
  import opened Rosters

  /** The id and name `Rand` draws for a new client or game. */
  datatype Naming = Naming(id: Id, name: string)

  /** `getGameMessage`: a game's public summary. */
  function GameMessage(g: Game): (m: GameSummary)
    reads g`state, g`clients
    ensures m.id == g.id && m.name == g.name && m.state == g.state
    ensures m.population == |g.clients|
  {
    GameSummary(g.id, g.name, g.state, |g.clients|)
  }

  class Server {
    var clients: seq<Client>
    var games: seq<Game>
    /** The tiles of `new Board()`. */
    const blankBoard: Grid
    /** How the `Inputs` of a new player start and flush. */
    const inputRules: InputRules

    /** `new Server()`. */
    constructor (blankBoard: Grid, inputRules: InputRules)
      ensures clients == [] && games == []
      ensures this.blankBoard == blankBoard && this.inputRules == inputRules
      ensures Valid()
    {
      clients := [];
      games := [];
      this.blankBoard := blankBoard;
      this.inputRules := inputRules;
    }

    /** The engines of the games. */
    function Cores(): set<Game?>
      reads this`games, games`gameCore
    {
      CoresOf(games)
    }

    /** The registry's invariant, `Registered`, over the two lists. */
    ghost predicate Valid()
      reads this`clients, this`games, clients`game, clients`state, games`clients, games`state, games`gameCore
      reads Cores()`turn
    {
      Registered(clients, games)
    }

    /** Every bot has a game, which its `isAlive` reads. */
    predicate BotsSeated()
      reads this`clients, clients`game
    {
      forall c :: c in clients && c.variant.Bot? ==> c.game != null
    }

    /** `findClient(clientId)`: the first client with that id. */
    function FindClient(clientId: Option<Id>): (r: Option<Client>)
      reads this`clients
      ensures r.Some? ==> r.value in clients && Some(r.value.id) == clientId
      ensures r.None? ==> forall c :: c in clients ==> Some(c.id) != clientId
      ensures r.Some? ==> exists i :: 0 <= i < |clients| && clients[i] == r.value
                                      && forall j :: 0 <= j < i ==> Some(clients[j].id) != clientId
    {
      match FirstIndex(clients, (c: Client) => Some(c.id) == clientId)
      case None => None
      case Some(i) => Some(clients[i])
    }

    /** `findGame(gameId)`: the first game with that id. */
    function FindGame(gameId: Option<Id>): (r: Option<Game>)
      reads this`games
      ensures r.Some? ==> r.value in games && Some(r.value.id) == gameId
      ensures r.None? ==> forall g :: g in games ==> Some(g.id) != gameId
      ensures r.Some? ==> exists i :: 0 <= i < |games| && games[i] == r.value
                                      && forall j :: 0 <= j < i ==> Some(games[j].id) != gameId
    {
      match FirstIndex(games, (g: Game) => Some(g.id) == gameId)
      case None => None
      case Some(i) => Some(games[i])
    }

    /** `createPlayerClient`, with the seat index and the socket bound to
      the constructor parameters they are named after. */
    method CreatePlayerClient(naming: Naming, clientIndex: int, netClient: Socket) returns (client: Client)
      requires Valid()
      modifies this`clients
      ensures fresh(client) && clients == old(clients) + [client]
      ensures client.id == naming.id && client.name == naming.name && client.clientIndex == clientIndex
      ensures client.variant.Player? && client.variant.netClient == netClient && fresh(client.variant.inputs)
      ensures client.state == Lobby && client.game == null
      ensures Valid()
    {
      client := new Client.Player(naming.id, naming.name, clientIndex, netClient, inputRules);
      FreshEnrol(clients, games, client);
      clients := clients + [client];
    }

    /** `createBotClient`; the seat index is a parameter. */
    method CreateBotClient(naming: Naming, clientIndex: int) returns (bot: Client)
      requires Valid()
      modifies this`clients
      ensures fresh(bot)
      ensures clients == old(clients) + [bot]
      ensures bot.id == naming.id && bot.name == naming.name && bot.clientIndex == clientIndex
      ensures bot.variant.Bot? && bot.state == Lobby && bot.game == null
      ensures Valid()
    {
      bot := new Client.Bot(naming.id, naming.name, clientIndex);
      FreshEnrol(clients, games, bot);
      clients := clients + [bot];
    }

    /** `changeClientName`. */
    static method ChangeClientName(client: Client, name: string)
      modifies client`name
      ensures client.name == name
    {
      client.name := name;
    }

    /** `leaveGame`: the client's game is abandoned and loses the client;
      the client returns to the lobby. */
    method LeaveGame(client: Client)
      requires Valid() && client in clients && client.game != null
      modifies client`game, client`state, client.game`state, client.game`clients
      ensures client.game == null && client.state == Lobby
      ensures old(client.game).state == Abandoned
      ensures old(client.game).clients == Remove(old(client.game.clients), client)
      ensures Valid()
    {
      ghost var g := client.game;
      Detach(client, games);
      DetachKeeps(clients, games, client, g);
    }

    /** `joinGame`: nothing happens when the client is already in `game`;
      otherwise the client leaves its game, if any, and is appended to
      `game`, which goes IN_PROGRESS with a new engine when this makes
      its population exactly two. */
    method JoinGame(client: Client, game: Game, core: Naming)
      requires Valid() && client in clients && game in games
      modifies client`game, client`state, game`clients, game`state, game`gameCore
      modifies ({client.game} - {null})`state, ({client.game} - {null})`clients
      ensures old(client.game) == game ==>
                && client.game == game && client.state == old(client.state)
                && game.clients == old(game.clients) && game.state == old(game.state)
                && game.gameCore == old(game.gameCore)
      ensures old(client.game) != game ==>
                && client.game == game && client.state == InGame
                && game.clients == old(game.clients) + [client]
      ensures old(client.game) != game && |game.clients| == NUM_CLIENTS_PER_GAME ==>
                && game.state == InProgress
                && fresh(game.gameCore)
                && game.gameCore.EngineState() == Engine.Initial(blankBoard)
      ensures old(client.game) != game && |game.clients| != NUM_CLIENTS_PER_GAME ==>
                game.state == old(game.state) && game.gameCore == old(game.gameCore)
      ensures old(client.game) != null && old(client.game) != game ==>
                && old(client.game).state == Abandoned
                && old(client.game).clients == Remove(old(client.game.clients), client)
      ensures Valid()
    {
      if client.game == game {
        return;
      }
      if client.game != null {
        LeaveGame(client);
      }
      Enter(client, game, core);
    }

    /** The second half of `joinGame`, for a client without a game. */
    method Enter(client: Client, game: Game, core: Naming)
      requires Valid() && client in clients && game in games && client.game == null
      modifies client`game, client`state, game`clients, game`state, game`gameCore
      ensures client.game == game && client.state == InGame
      ensures game.clients == old(game.clients) + [client]
      ensures |game.clients| == NUM_CLIENTS_PER_GAME ==>
                && game.state == InProgress
                && fresh(game.gameCore)
                && game.gameCore.EngineState() == Engine.Initial(blankBoard)
      ensures |game.clients| != NUM_CLIENTS_PER_GAME ==>
                game.state == old(game.state) && game.gameCore == old(game.gameCore)
      ensures Valid()
    {
      Append(client, game);
      if |game.clients| == NUM_CLIENTS_PER_GAME {
        Start(game, core);
      }
    }

    /** The client, without a game, becomes the last member of `game`. */
    method Append(client: Client, game: Game)
      requires Valid() && client in clients && game in games && client.game == null
      modifies client`game, client`state, game`clients
      ensures client.game == game && client.state == InGame
      ensures game.clients == old(game.clients) + [client]
      ensures Valid()
    {
      client.game := game;
      client.state := InGame;
      game.clients := game.clients + [client];
      AttachKeeps(clients, games, client, game);
    }

    /** The quorum transition: `game` goes IN_PROGRESS with a new engine. */
    method Start(game: Game, core: Naming)
      requires Valid() && game in games
      modifies game`state, game`gameCore
      ensures game.state == InProgress
      ensures fresh(game.gameCore) && game.gameCore.EngineState() == Engine.Initial(blankBoard)
      ensures Valid()
    {
      var gameCore := new Game(core.id, core.name, blankBoard);
      game.state := InProgress;
      game.gameCore := gameCore;
      StartKeeps(clients, games, game);
    }

    /** `new Game()` pushed onto the game list. */
    method RegisterGame(naming: Naming) returns (game: Game)
      requires Valid()
      modifies this`games
      ensures fresh(game) && games == old(games) + [game]
      ensures game.id == naming.id && game.name == naming.name
      ensures game.state == WaitingForPlayers && game.clients == [] && game.gameCore == null
      ensures Valid()
    {
      game := new Game(naming.id, naming.name, blankBoard);
      FreshOpen(clients, games, game);
      games := games + [game];
    }

    /** The first two steps of `createAndJoinGame`: a new game is
      registered and the client, leaving its previous game, joins it. */
    method OpenGame(client: Client, gameNaming: Naming, core: Naming) returns (game: Game)
      requires Valid() && client in clients
      modifies this`games, client`game, client`state
      modifies ({client.game} - {null})`state, ({client.game} - {null})`clients
      ensures fresh(game) && games == old(games) + [game]
      ensures game.id == gameNaming.id && game.name == gameNaming.name
      ensures client.game == game && client.state == InGame
      ensures game.clients == [client] && game.state == WaitingForPlayers && game.gameCore == null
      ensures old(client.game) != null ==>
                && old(client.game).state == Abandoned
                && old(client.game).clients == Remove(old(client.game.clients), client)
      ensures Valid()
    {
      game := RegisterGame(gameNaming);
      JoinGame(client, game, core);
    }

    /** `createAndJoinGame`: register a new game and move the client into
      it; with `config.bot` a new bot joins as the second member, which
      starts the game. An absent `config` throws after the client has
      joined (`thrown`). */
    method CreateAndJoinGame(client: Client, config: Option<Config>, gameNaming: Naming,
                             botNaming: Naming, botIndex: int, core: Naming)
      returns (game: Game, thrown: bool)
      requires Valid() && client in clients
      modifies this`clients, this`games, client`game, client`state
      modifies ({client.game} - {null})`state, ({client.game} - {null})`clients
      ensures fresh(game) && games == old(games) + [game]
      ensures game.id == gameNaming.id && game.name == gameNaming.name
      ensures client.game == game && client.state == InGame
      ensures thrown <==> config.None?
      ensures config == Some(Config(true)) ==>
                && |clients| == |old(clients)| + 1 && clients == old(clients) + [clients[|old(clients)|]]
                && fresh(clients[|old(clients)|]) && clients[|old(clients)|].variant.Bot?
                && clients[|old(clients)|].id == botNaming.id && clients[|old(clients)|].name == botNaming.name
                && clients[|old(clients)|].clientIndex == botIndex
                && clients[|old(clients)|].game == game && clients[|old(clients)|].state == InGame
                && game.clients == [client, clients[|old(clients)|]]
                && game.state == InProgress
                && fresh(game.gameCore) && game.gameCore.EngineState() == Engine.Initial(blankBoard)
      ensures config != Some(Config(true)) ==>
                clients == old(clients) && game.clients == [client] && game.state == WaitingForPlayers
                && game.gameCore == null
      ensures old(client.game) != null ==>
                && old(client.game).state == Abandoned
                && old(client.game).clients == Remove(old(client.game.clients), client)
      ensures Valid()
    {
      game := OpenGame(client, gameNaming, core);
      thrown := config.None?;
      if config == Some(Config(true)) {
        var bot := AddBot(game, botNaming, botIndex, core);
      }
    }

    /** The `config.bot` branch of `createAndJoinGame`: a new bot joins
      `game`, whose only member is waiting for it, and the game starts. */
    method AddBot(game: Game, botNaming: Naming, botIndex: int, core: Naming) returns (bot: Client)
      requires Valid() && game in games && |game.clients| == 1
      modifies this`clients, game`clients, game`state, game`gameCore
      ensures fresh(bot) && clients == old(clients) + [bot]
      ensures bot.id == botNaming.id && bot.name == botNaming.name && bot.clientIndex == botIndex
      ensures bot.variant.Bot? && bot.game == game && bot.state == InGame
      ensures game.clients == old(game.clients) + [bot]
      ensures game.state == InProgress
      ensures fresh(game.gameCore) && game.gameCore.EngineState() == Engine.Initial(blankBoard)
      ensures Valid()
    {
      bot := CreateBotClient(botNaming, botIndex);
      Enter(bot, game, core);
    }

    /** `inputGame`: queue an event on the client's input buffer (only a
      player has one). */
    static method InputGame(client: Client, input: RawInput)
      requires client.variant.Player?
      modifies client.variant.inputs`queued
      ensures client.variant.inputs.queued == old(client.variant.inputs.queued) + [input]
    {
      client.variant.inputs.AccumulateInput(input);
    }

    /** `getLobbyClients`: in order, the clients in the lobby or whose game
      is not in progress. */
    function LobbyClients(): (r: seq<Client>)
      requires forall c :: c in clients && c.state == InGame ==> c.game != null
      reads this`clients, clients, GamesOf(clients)
      ensures forall c :: c in r ==> c in clients && InLobbyView(c)
      ensures forall c :: c in clients && InLobbyView(c) ==> c in r
    {
      var keep := LobbyFlags(clients);
      KeepWitness(clients, keep);
      forall c | c in clients && InLobbyView(c) ensures c in Keep(clients, keep)
      {
        var i :| 0 <= i < |clients| && clients[i] == c;
        KeepMember(clients, keep, i);
      }
      Keep(clients, keep)
    }
  
    /** `cleanClosedClientsAndGames`: visit the clients in order; one whose
      `isAlive()` is false is dropped and leaves its game, which can change
      what a later bot of that game sees. Then the games left without
      clients are dropped. `alive[i]` is the verdict on the i-th client. */
    method CleanClosedClientsAndGames() returns (alive: seq<bool>)
      requires Valid() && BotsSeated()
      modifies this`clients, this`games, clients`game, clients`state, games`clients, games`state
      ensures |alive| == |old(clients)| && Cleaned(old(clients), old(games), alive, old(Snap(clients, games)))
      ensures clients == Keep(old(clients), alive) && games == Populated(old(games))
      ensures Valid()
    {
      ghost var s := Snap(clients, games);
      alive := Sweep();
      Compact(clients, alive, s);
    }

    /** The filter's visits, after which the lists still form a registry. */
    method Sweep() returns (alive: seq<bool>)
      requires Valid() && BotsSeated()
      modifies clients`game, clients`state, games`clients, games`state
      ensures |alive| == |clients| && Cleaned(clients, games, alive, old(Snap(clients, games)))
      ensures Valid()
    {
      SeatingHolds(clients, games);
      alive := Visit(clients, games);
      SweptKeeps(clients, games, alive);
    }

    /** The two filter-assignments that end the sweep. */
    method Compact(ghost C: seq<Client>, alive: seq<bool>, ghost s: Snapshot)
      requires Valid() && clients == C && |alive| == |C| && Cleaned(C, games, alive, s)
      modifies this`clients, this`games
      ensures clients == Keep(C, alive) && games == old(Populated(games))
      ensures Cleaned(C, old(games), alive, s)
      ensures Valid()
    {
      var kept, populated := Keep(clients, alive), Populated(games);
      CompactRegistered(C, games, alive);
      clients, games := kept, populated;
      RegisteredStays(kept, populated);
    }
  }
}
