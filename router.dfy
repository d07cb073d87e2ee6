/**
 * The two places in socketServer.js that drive the registry: the handler the
 * network layer calls with each parsed inbound message, and the body of the
 * periodic timer, one tick of the server.
 */
module Router {
  import opened Wrappers
  import opened Seqs
  import opened Board
  import opened InputBuffer
  import opened Protocol
  import opened Net
  import opened Session
  import opened Rosters
  import opened Registry
  import Engine

  /** What `Rand` draws while one message is handled: the new client's id
      and name with its seat index, the new game's, the bot's with its seat
      index, and the engine's. */
  datatype Draws = Draws(client: Naming, clientIndex: int, game: Naming, bot: Naming, botIndex: int, core: Naming)

  /** How handling a message ended: it acted on the registry; it named a
      client or a game that is not registered, so nothing happened; its type
      is not one the handler knows (a warning is logged); or the handler
      threw and the network layer swallowed the exception. */
  datatype Outcome = Handled | Ignored | Unrecognized | Swallowed

  /** The cases of the handler's switch on the message type. */
  datatype Kind = CreateClient | Rename | CreateGame | Join | Leave | Input | Unknown

  /** The case of the switch that a message type selects. */
  function KindOf(kind: string): (k: Kind)
    ensures k == CreateClient <==> kind == "create-client"
    ensures k == Rename <==> kind == "change-client-name"
    ensures k == CreateGame <==> kind == "create-game"
    ensures k == Join <==> kind == "join-game"
    ensures k == Leave <==> kind == "leave-game"
    ensures k == Input <==> kind == "input-game"
  {
    match kind
    case "create-client" => CreateClient
    case "change-client-name" => Rename
    case "create-game" => CreateGame
    case "join-game" => Join
    case "leave-game" => Leave
    case "input-game" => Input
    case _ => Unknown
  }

  /** The handler: look up the client and the game the message names, then
      act on its type. Only `create-client` acts without a registered
      client, and only `join-game` needs a registered game. */
  method Dispatch(server: Server, netClient: Socket, message: Inbound, draws: Draws) returns (outcome: Outcome)
    requires server.Valid()
    modifies server`clients, server`games, server.clients`game, server.clients`state, server.clients`name
    modifies server.games`clients, server.games`state, server.games`gameCore
    modifies InputsSetOf(server.clients)`queued, netClient`sent
    ensures server.Valid()
    ensures KindOf(message.kind) == Unknown ==> outcome == Unrecognized && Quiet(server, netClient)
    ensures KindOf(message.kind) == CreateClient ==> outcome == Handled && CreatedClientIn(server, netClient, draws)
    ensures KindOf(message.kind) == Rename ==> Renamed(server, netClient, old(server.FindClient(message.clientId)), message.name, outcome)
    ensures KindOf(message.kind) == CreateGame ==>
              CreatedGameIn(server, netClient, old(server.FindClient(message.clientId)),
                            old(Home(server.FindClient(message.clientId))), message.config, draws, outcome)
    ensures KindOf(message.kind) == Join ==>
              Joined(server, netClient, old(server.FindClient(message.clientId)), old(server.FindGame(message.gameId)),
                     old(Home(server.FindClient(message.clientId))), outcome)
    ensures KindOf(message.kind) == Leave ==>
              Left(server, netClient, old(server.FindClient(message.clientId)), old(Home(server.FindClient(message.clientId))), outcome)
    ensures KindOf(message.kind) == Input ==> Queued(server, netClient, old(server.FindClient(message.clientId)), message.input, outcome)
  {
    var client := server.FindClient(message.clientId);
    var game := server.FindGame(message.gameId);
    match KindOf(message.kind)
    case CreateClient =>
      HandleCreateClient(server, netClient, draws);
      outcome := Handled;
    case Rename =>
      outcome := HandleRename(server, netClient, client, message.name);
    case CreateGame =>
      outcome := HandleCreateGame(server, netClient, client, message.config, draws);
    case Join =>
      outcome := HandleJoin(server, netClient, client, game, draws.core);
    case Leave =>
      outcome := HandleLeave(server, netClient, client);
    case Input =>
      outcome := HandleInput(server, netClient, client, message.input);
    case Unknown =>
      outcome := Unrecognized;
  }

  /** Every client of `cs` other than `c` is as it was. */
  twostate predicate OthersKept(cs: seq<Client>, c: Client?)
    reads cs
  {
    forall d :: d in cs && d != c ==>
      d.name == old(d.name) && d.state == old(d.state) && d.game == old(d.game) && d.colonyBot == old(d.colonyBot)
  }

  /** Every game of `gs` outside `hs` is as it was. */
  twostate predicate GamesKept(gs: seq<Game>, hs: set<Game?>)
    reads gs
  {
    forall h :: h in gs && h !in hs ==>
      && h.state == old(h.state) && h.clients == old(h.clients) && h.gameCore == old(h.gameCore)
      && h.board == old(h.board) && h.turn == old(h.turn) && h.selected == old(h.selected)
  }

  /** Nothing the handler may change has changed. */
  twostate predicate Quiet(server: Server, netClient: Socket)
    reads server, netClient, server.clients, server.games, InputsSetOf(server.clients)
  {
    && unchanged(server, netClient)
    && unchanged(server.clients, server.games)
    && unchanged(InputsSetOf(server.clients))
  }

  /** `create-client`: a new player on `netClient` is registered last, in
      the lobby, and is told its id and name if its socket is OPEN. */
  twostate predicate CreatedClientIn(server: Server, netClient: Socket, draws: Draws)
    reads server, server.clients, server.games, InputsSetOf(server.clients), netClient
  {
    && |server.clients| == |old(server.clients)| + 1
    && server.clients[..|old(server.clients)|] == old(server.clients)
    && server.games == old(server.games)
    && OthersKept(server.clients[..|old(server.clients)|], null)
    && GamesKept(server.games, {})
    && unchanged(InputsSetOf(server.clients[..|old(server.clients)|]))
    && var c := server.clients[|old(server.clients)|];
       && fresh(c) && c.variant.Player? && c.variant.netClient == netClient
       && c.id == draws.client.id && c.name == draws.client.name && c.clientIndex == draws.clientIndex
       && c.state == Lobby && c.game == null
       && netClient.sent == old(netClient.sent) + Delivered(netClient.readyState, CreatedClient(c.id, c.name))
  }

  method HandleCreateClient(server: Server, netClient: Socket, draws: Draws)
    requires server.Valid()
    modifies server`clients, netClient`sent
    ensures server.Valid() && CreatedClientIn(server, netClient, draws)
  {
    var c := server.CreatePlayerClient(draws.client, draws.clientIndex, netClient);
    Acknowledge(server, netClient, CreatedClient(c.id, c.name));
  }

  /** `change-client-name`: the named client, if registered, takes the new name. */
  twostate predicate Renamed(server: Server, netClient: Socket, client: Option<Client>, name: string, outcome: Outcome)
    reads server, netClient, server.clients, server.games, InputsSetOf(server.clients), (if client.Some? then {client.value} else {})
  {
    match client
    case None => outcome == Ignored && Quiet(server, netClient)
    case Some(c) =>
      && outcome == Handled && unchanged(server, netClient)
      && c.name == name && unchanged(c`game, c`state, c`colonyBot)
      && OthersKept(server.clients, c)
      && unchanged(server.games) && unchanged(InputsSetOf(server.clients))
  }

  method HandleRename(server: Server, netClient: Socket, client: Option<Client>, name: string) returns (outcome: Outcome)
    requires server.Valid() && (client.Some? ==> client.value in server.clients)
    modifies server.clients`name
    ensures server.Valid() && Renamed(server, netClient, client, name, outcome)
  {
    if client.Some? {
      Server.ChangeClientName(client.value, name);
      RegisteredStays(server.clients, server.games);
      outcome := Handled;
    } else {
      outcome := Ignored;
    }
  }

  /** `create-game`: a new game is registered last and the named client,
      which leaves its game `home` if it has one, joins it; the creator is
      told the game's id and name unless the missing `config` made the
      handler throw first. */
  twostate predicate CreatedGameIn(server: Server, netClient: Socket, client: Option<Client>, home: Game?,
                                   config: Option<Config>, draws: Draws, outcome: Outcome)
    reads server, netClient, server.clients, server.games, InputsSetOf(server.clients)
    reads (if client.Some? then {client.value} else {}), {home} - {null}, CoresOf(server.games)
  {
    match client
    case None => outcome == Ignored && Quiet(server, netClient)
    case Some(c) => GameCreated(server, netClient, c, home, config, draws, outcome)
  }

  /** The new game holds the creator and, with `config.bot`, a new bot that
      makes it start; the creator's former game is abandoned without it;
      every other client and game is as it was. */
  twostate predicate GameCreated(server: Server, netClient: Socket, c: Client, home: Game?, config: Option<Config>,
                                 draws: Draws, outcome: Outcome)
    reads server, netClient, server.clients, server.games, InputsSetOf(server.clients), c, {home} - {null}
    reads CoresOf(server.games)
  {
    && outcome == (if config.None? then Swallowed else Handled)
    && |server.games| == |old(server.games)| + 1
    && var g := server.games[|old(server.games)|];
       && NewGameJoined(server, c, home, g, config, draws)
       && netClient.readyState == old(netClient.readyState)
       && netClient.sent
          == old(netClient.sent) + if config.Some? then Delivered(netClient.readyState, CreatedGame(g.id, g.name)) else []
  }

  /** What `createAndJoinGame` leaves in the registry: `g` is registered
      last and holds the creator, with a new bot when `config.bot` is set;
      the creator's former game is abandoned without it; every other client
      and game is as it was. */
  twostate predicate NewGameJoined(server: Server, c: Client, home: Game?, new g: Game, config: Option<Config>,
                                   draws: Draws)
    reads server, server.clients, server.games, InputsSetOf(server.clients), c, {home} - {null}, g
    reads {g.gameCore} - {null}
  {
    && |server.games| == |old(server.games)| + 1
    && server.games[..|old(server.games)|] == old(server.games) && g == server.games[|old(server.games)|]
    && fresh(g) && g.id == draws.game.id && g.name == draws.game.name
    && c.game == g && c.state == InGame && unchanged(c`name, c`colonyBot)
    && (config == Some(Config(true)) ==> BotSeated(server, g, c, draws))
    && (config != Some(Config(true)) ==>
          && server.clients == old(server.clients)
          && g.clients == [c] && g.state == WaitingForPlayers && g.gameCore == null)
    && (home != null ==>
          && home.state == Abandoned && home.clients == Remove(old(home.clients), c)
          && unchanged(home`gameCore))
    && OthersKept(server.clients[..|old(server.clients)|], c)
    && GamesKept(server.games[..|old(server.games)|], {home})
    && unchanged(InputsSetOf(server.clients))
  }

  /** The `config.bot` branch: a new bot is registered last and seated
      second in `g`, which goes IN_PROGRESS with a new engine. */
  twostate predicate BotSeated(server: Server, new g: Game, c: Client, draws: Draws)
    reads server, server.clients, g, ({g.gameCore} - {null})
  {
    && |server.clients| == |old(server.clients)| + 1
    && server.clients[..|old(server.clients)|] == old(server.clients)
    && var b := server.clients[|old(server.clients)|];
       && fresh(b) && b.variant.Bot?
       && b.id == draws.bot.id && b.name == draws.bot.name && b.clientIndex == draws.botIndex
       && b.game == g && b.state == InGame
       && g.clients == [c, b] && g.state == InProgress
       && g.gameCore != null && fresh(g.gameCore) && g.gameCore.EngineState() == Engine.Initial(server.blankBoard)
  }

  method HandleCreateGame(server: Server, netClient: Socket, client: Option<Client>, config: Option<Config>, draws: Draws)
    returns (outcome: Outcome)
    requires server.Valid() && (client.Some? ==> client.value in server.clients)
    modifies server`clients, server`games, server.clients`game, server.clients`state
    modifies server.games`clients, server.games`state, netClient`sent
    ensures server.Valid() && CreatedGameIn(server, netClient, client, old(Home(client)), config, draws, outcome)
  {
    if client.None? {
      return Ignored;
    }
    outcome := CreateGameFor(server, netClient, client.value, config, draws);
  }

  method CreateGameFor(server: Server, netClient: Socket, client: Client, config: Option<Config>, draws: Draws)
    returns (outcome: Outcome)
    requires server.Valid() && client in server.clients
    modifies server`clients, server`games, client`game, client`state
    modifies server.games`clients, server.games`state, netClient`sent
    ensures server.Valid() && GameCreated(server, netClient, client, old(client.game), config, draws, outcome)
  {
    var g, thrown := JoinNewGame(server, client, config, draws);
    if thrown {
      outcome := Swallowed;
    } else {
      Acknowledge(server, netClient, CreatedGame(g.id, g.name));
      outcome := Handled;
    }
  }

  /** `server.createAndJoinGame(client, message.config)`. */
  method JoinNewGame(server: Server, client: Client, config: Option<Config>, draws: Draws) returns (g: Game, thrown: bool)
    requires server.Valid() && client in server.clients
    modifies server`clients, server`games, client`game, client`state
    modifies server.games`clients, server.games`state
    ensures server.Valid() && (thrown <==> config.None?)
    ensures NewGameJoined(server, client, old(client.game), g, config, draws)
  {
    if config == Some(Config(true)) {
      g, thrown := JoinNewGameWithBot(server, client, config, draws);
    } else {
      g, thrown := JoinNewGameAlone(server, client, config, draws);
    }
  }

  /** `createAndJoinGame` when `config.bot` is set. */
  method JoinNewGameWithBot(server: Server, client: Client, config: Option<Config>, draws: Draws)
    returns (g: Game, thrown: bool)
    requires server.Valid() && client in server.clients && config == Some(Config(true))
    modifies server`clients, server`games, client`game, client`state
    modifies server.games`clients, server.games`state
    ensures server.Valid() && !thrown
    ensures NewGameJoined(server, client, old(client.game), g, config, draws)
  {
    g, thrown := server.CreateAndJoinGame(client, config, draws.game, draws.bot, draws.botIndex, draws.core);
    assert server.games[..|old(server.games)|] == old(server.games);
    assert server.clients[..|old(server.clients)|] == old(server.clients);
  }

  /** `createAndJoinGame` without a bot, or without a `config`. */
  method JoinNewGameAlone(server: Server, client: Client, config: Option<Config>, draws: Draws)
    returns (g: Game, thrown: bool)
    requires server.Valid() && client in server.clients && config != Some(Config(true))
    modifies server`clients, server`games, client`game, client`state
    modifies server.games`clients, server.games`state
    ensures server.Valid() && (thrown <==> config.None?)
    ensures NewGameJoined(server, client, old(client.game), g, config, draws)
  {
    g, thrown := server.CreateAndJoinGame(client, config, draws.game, draws.bot, draws.botIndex, draws.core);
    assert server.games[..|old(server.games)|] == old(server.games);
    assert server.clients[..|old(server.clients)|] == old(server.clients);
  }

  /** `PlayerClientInterface.sendToNetClient` from the handler, which
      leaves the registry as it is. */
  method Acknowledge(server: Server, netClient: Socket, m: Message)
    requires server.Valid()
    modifies netClient`sent
    ensures server.Valid()
    ensures netClient.sent == old(netClient.sent) + Delivered(netClient.readyState, m)
  {
    Client.SendToNetClient(netClient, m);
  }

  /** `join-game`: when both are registered, the client is a member of the
      game; `joinGame` changes nothing when it already was. */
  twostate predicate Joined(server: Server, netClient: Socket, client: Option<Client>, game: Option<Game>,
                            home: Game?, outcome: Outcome)
    reads server, netClient, server.clients, server.games, InputsSetOf(server.clients)
    reads (if client.Some? then {client.value} else {}), (if game.Some? then {game.value} else {})
    reads {home} - {null}, (if game.Some? then {game.value.gameCore} - {null} else {})
  {
    if client.Some? && game.Some? then
      && outcome == Handled
      && GameJoined(server, client.value, game.value, home)
      && unchanged(netClient) && unchanged(InputsSetOf(server.clients))
    else outcome == Ignored && Quiet(server, netClient)
  }

  /** What `joinGame(c, g)` does when `c` was in `home`: nothing if that is
      `g`; otherwise `home`, if any, is abandoned without `c`, `c` is
      appended to `g`, and `g` starts with a new engine when this makes its
      population two. Every other client and game is as it was. */
  twostate predicate GameJoined(server: Server, c: Client, g: Game, home: Game?)
    reads server, server.clients, server.games, c, g, {home} - {null}, {g.gameCore} - {null}
  {
    && unchanged(server)
    && c.game == g && c.state == InGame && unchanged(c`name, c`colonyBot)
    && (home == g ==> unchanged(g))
    && (home != g ==>
          && g.clients == old(g.clients) + [c]
          && (|g.clients| == NUM_CLIENTS_PER_GAME ==>
                && g.state == InProgress && g.gameCore != null && fresh(g.gameCore)
                && g.gameCore.EngineState() == Engine.Initial(server.blankBoard))
          && (|g.clients| != NUM_CLIENTS_PER_GAME ==> g.state == old(g.state) && g.gameCore == old(g.gameCore)))
    && (home != null && home != g ==>
          && home.state == Abandoned && home.clients == Remove(old(home.clients), c)
          && unchanged(home`gameCore))
    && OthersKept(server.clients, c)
    && GamesKept(server.games, {g, home})
  }

  method HandleJoin(server: Server, netClient: Socket, client: Option<Client>, game: Option<Game>, core: Naming)
    returns (outcome: Outcome)
    requires server.Valid()
    requires client.Some? ==> client.value in server.clients
    requires game.Some? ==> game.value in server.games
    modifies server.clients`game, server.clients`state, server.games`clients, server.games`state, server.games`gameCore
    ensures server.Valid() && Joined(server, netClient, client, game, old(Home(client)), outcome)
  {
    if client.None? || game.None? {
      return Ignored;
    }
    JoinFound(server, client.value, game.value, core);
    outcome := Handled;
  }

  /** `server.joinGame(client, game)` for a registered client and game. */
  method JoinFound(server: Server, client: Client, game: Game, core: Naming)
    requires server.Valid() && client in server.clients && game in server.games
    modifies client`game, client`state, game`clients, game`state, game`gameCore
    modifies ({client.game} - {null})`state, ({client.game} - {null})`clients
    ensures server.Valid() && GameJoined(server, client, game, old(client.game))
  {
    server.JoinGame(client, game, core);
  }

  /** `leave-game`: the named client leaves its game, which is abandoned;
      a client without a game makes the handler throw. */
  twostate predicate Left(server: Server, netClient: Socket, client: Option<Client>, home: Game?, outcome: Outcome)
    reads server, netClient, server.clients, server.games, InputsSetOf(server.clients)
    reads (if client.Some? then {client.value} else {}), {home} - {null}
  {
    match client
    case None => outcome == Ignored && Quiet(server, netClient)
    case Some(c) =>
      if home == null then outcome == Swallowed && Quiet(server, netClient)
      else
        && outcome == Handled && unchanged(server, netClient)
        && c.game == null && c.state == Lobby && unchanged(c`name, c`colonyBot)
        && home.state == Abandoned && home.clients == Remove(old(home.clients), c) && c !in home.clients
        && unchanged(home`gameCore)
        && OthersKept(server.clients, c) && GamesKept(server.games, {home})
        && unchanged(InputsSetOf(server.clients))
  }

  /** The game of the client found, if any. */
  function Home(client: Option<Client>): (home: Game?)
    reads (if client.Some? then {client.value} else {})
    ensures home != null ==> client.Some? && home == client.value.game
  {
    if client.Some? then client.value.game else null
  }

  method HandleLeave(server: Server, netClient: Socket, client: Option<Client>) returns (outcome: Outcome)
    requires server.Valid() && (client.Some? ==> client.value in server.clients)
    modifies server.clients`game, server.clients`state, server.games`clients, server.games`state
    ensures server.Valid() && Left(server, netClient, client, old(Home(client)), outcome)
  {
    if client.None? {
      return Ignored;
    }
    var c := client.value;
    if c.game == null {
      return Swallowed;
    }
    ghost var g := c.game;
    server.LeaveGame(c);
    RemoveDistinct(old(g.clients), c);
    outcome := Handled;
  }

  /** `input-game`: a player's buffer queues the input; any other client
      has no buffer and the handler throws. */
  twostate predicate Queued(server: Server, netClient: Socket, client: Option<Client>, input: RawInput, outcome: Outcome)
    reads server, netClient, server.clients, server.games, InputsSetOf(server.clients)
    reads (if client.Some? then client.value.InputsSet() else {})
  {
    match client
    case None => outcome == Ignored && Quiet(server, netClient)
    case Some(c) =>
      if c.variant.Player? then
        && outcome == Handled
        && unchanged(server, netClient) && unchanged(server.clients, server.games)
        && c.variant.inputs.queued == old(c.variant.inputs.queued) + [input]
        && unchanged(c.variant.inputs`frame)
        && (forall x :: x in InputsSetOf(server.clients) && x != c.variant.inputs ==> unchanged(x))
      else outcome == Swallowed && Quiet(server, netClient)
  }

  method HandleInput(server: Server, netClient: Socket, client: Option<Client>, input: RawInput) returns (outcome: Outcome)
    requires server.Valid() && (client.Some? ==> client.value in server.clients)
    modifies InputsSetOf(server.clients)`queued
    ensures server.Valid() && Queued(server, netClient, client, input, outcome)
  {
    if client.None? {
      return Ignored;
    }
    if client.value.variant.Player? {
      Server.InputGame(client.value, input);
      outcome := Handled;
    } else {
      outcome := Swallowed;
    }
  }

  /** `clients.map(({name}) => name)`. */
  function Names(cs: seq<Client>): (r: seq<string>)
    reads cs`name
    ensures |r| == |cs| && forall i :: 0 <= i < |cs| ==> r[i] == cs[i].name
  {
    if cs == [] then [] else Names(cs[..|cs| - 1]) + [cs[|cs| - 1].name]
  }

  /** `games.map(Server.getGameMessage)`. */
  function Summaries(gs: seq<Game>): (r: seq<GameSummary>)
    reads gs`state, gs`clients
    ensures |r| == |gs| && forall i :: 0 <= i < |gs| ==> r[i] == GameMessage(gs[i])
  {
    if gs == [] then [] else Summaries(gs[..|gs| - 1]) + [GameMessage(gs[|gs| - 1])]
  }

  /** The summaries depend only on the games' states and client lists. */
  twostate lemma {:induction false} SummariesKept(new gs: seq<Game>)
    requires old(allocated(gs))
    requires forall g :: g in gs ==> g.state == old(g.state) && g.clients == old(g.clients)
    ensures Summaries(gs) == old(Summaries(gs))
    decreases |gs|
  {
    if gs != [] {
      SummariesKept(gs[..|gs| - 1]);
    }
  }

  /** The names depend only on the clients' names. */
  twostate lemma {:induction false} NamesKept(new cs: seq<Client>)
    requires old(allocated(cs))
    requires forall c :: c in cs ==> c.name == old(c.name)
    ensures Names(cs) == old(Names(cs))
    decreases |cs|
  {
    if cs != [] {
      NamesKept(cs[..|cs| - 1]);
    }
  }

  /** Every client of `cs` is a player, and so has an input buffer. */
  predicate AllPlayers(cs: seq<Client>)
  {
    forall c :: c in cs ==> c.variant.Player?
  }

  /** `clients.map(({inputs}) => inputs)` over players. */
  function PlayerInputs(cs: seq<Client>): (r: seq<Inputs>)
    requires AllPlayers(cs)
    ensures |r| == |cs| && forall i :: 0 <= i < |cs| ==> r[i] == cs[i].variant.inputs
  {
    seq(|cs|, i requires 0 <= i < |cs| => cs[i].variant.inputs)
  }

  /** The first client without an input buffer. */
  function FirstUnbuffered(cs: seq<Client>): (k: nat)
    requires !AllPlayers(cs)
    ensures k < |cs| && !cs[k].variant.Player? && AllPlayers(cs[..k])
  {
    if !cs[0].variant.Player? then 0
    else
      var k := 1 + FirstUnbuffered(cs[1..]);
      assert cs[..k] == [cs[0]] + cs[1..][..k - 1];
      k
  }

  /** Two players of one game never share an input buffer. */
  lemma PlayerInputsDistinct(cs: seq<Client>, gs: seq<Game>, g: Game, k: nat)
    requires Registered(cs, gs) && g in gs && k <= |g.clients| && AllPlayers(g.clients[..k])
    ensures Distinct(PlayerInputs(g.clients[..k]))
  {
    var ps := g.clients[..k];
    var xs := PlayerInputs(ps);
    DistinctPairs(g.clients);
    forall i, j | 0 <= i < j < |xs| ensures xs[i] != xs[j]
    {
      assert ps[i] == g.clients[i] && ps[j] == g.clients[j];
      assert g.clients[i] in cs && g.clients[j] in cs;
    }
    DistinctPairs(xs);
  }

  /** The `data` of a game's update: its engine's state diff while the game
      is in progress, `false` otherwise. */
  function GameData(g: Game, rules: Rules): (d: Option<StateDiff>)
    requires g.state == InProgress ==> g.gameCore != null
    reads g`state, g`gameCore, ({g.gameCore} - {null})`turn, ({g.gameCore} - {null})`selected
    reads ({g.gameCore} - {null})`board
    ensures d.Some? <==> g.state == InProgress
    ensures d.Some? ==> d.value == g.gameCore.GetStateDiff(rules)
  {
    if g.state == InProgress then Some(g.gameCore.GetStateDiff(rules)) else None
  }

  /** Every buffer of `xs` has been flushed once. */
  twostate predicate Flushed(xs: seq<Inputs>)
    reads xs
  {
    forall j :: 0 <= j < |xs| ==>
      xs[j].queued == [] && xs[j].frame == xs[j].rules.apply(old(xs[j].frame), old(xs[j].queued))
  }

  /** How far a tick got: the sweep met a bot without a game; the lobby
      broadcast met a bot; the update of the game at `index` met a client
      without an input buffer; or the tick completed. Each of the first
      three is an exception that escapes the timer's callback. */
  datatype TickEnd = SweepCrash | LobbyCrash | GameCrash(index: nat) | Completed

  /** The lobby broadcast: the clients of `getLobbyClients()` are sent the
      population, the clients' names and every game's summary. A lobby
      message has no `data`, so a bot among the recipients makes its
      `send` throw, which ends the broadcast there. */
  method Announce(server: Server) returns (lobby: Message, recipients: seq<Client>, sentTo: nat)
    requires server.Valid()
    modifies server.clients`colonyBot, SocketsOf(server.clients)`sent
    ensures server.Valid()
    ensures lobby == LobbyUpdate(|server.clients|, Names(server.clients), Summaries(server.games))
    ensures recipients == old(server.LobbyClients())
    ensures Delivery(recipients, sentTo, lobby)
    ensures forall g: Game {:trigger g.state} {:trigger g.clients} {:trigger g.gameCore} {:trigger g.turn} {:trigger g.selected} {:trigger g.board} ::
              old(allocated(g)) ==>
                && g.state == old(g.state) && g.clients == old(g.clients) && g.gameCore == old(g.gameCore)
                && g.turn == old(g.turn) && g.selected == old(g.selected) && g.board == old(g.board)
    ensures forall x: Inputs {:trigger x.queued} {:trigger x.frame} :: old(allocated(x)) ==> x.queued == old(x.queued) && x.frame == old(x.frame)
  {
    lobby := LobbyUpdate(|server.clients|, Names(server.clients), Summaries(server.games));
    recipients := server.LobbyClients();
    assert forall i :: 0 <= i < |recipients| ==> recipients[i] in server.clients;
    SocketsSub(recipients, server.clients);
    sentTo := Send(server, recipients, lobby);
  }

  /** `game.gameCore.update(...)` when the game is in progress. The list of
      buffers is flushed in order; a client without one (a bot) makes the
      flush throw once the players before it are flushed. */
  method Advance(server: Server, game: Game, ghost memo: Memo, rules: Rules) returns (crashed: bool)
    requires server.Valid() && game in server.games && Idle(game, memo)
    modifies ({game.gameCore} - {null})`turn, ({game.gameCore} - {null})`selected, ({game.gameCore} - {null})`board
    modifies InputsSetOf(game.clients)`queued, InputsSetOf(game.clients)`frame
    ensures server.Valid()
    ensures crashed <==> game.state == InProgress && !AllPlayers(game.clients)
    ensures game.state != InProgress ==> unchanged(InputsSetOf(game.clients)) && unchanged(({game.gameCore} - {null}))
    ensures crashed ==>
              && Flushed(PlayerInputs(game.clients[..FirstUnbuffered(game.clients)]))
              && (forall j :: FirstUnbuffered(game.clients) < j < |game.clients| && game.clients[j].variant.Player? ==>
                    game.clients[j].variant.inputs.queued == old(game.clients[j].variant.inputs.queued)
                    && game.clients[j].variant.inputs.frame == old(game.clients[j].variant.inputs.frame))
              && unchanged(game.gameCore)
    ensures game.state == InProgress && !crashed ==>
              && Flushed(PlayerInputs(game.clients))
              && game.gameCore.EngineState()
                 == Engine.Step(old(game.gameCore.EngineState()),
                                Engine.SeatClick(Frames(PlayerInputs(game.clients)), old(game.gameCore.turn), rules.inBounds),
                                rules)
    ensures Advanced(game, memo, rules)
  {
    label start:
    if game.state != InProgress {
      crashed := false;
    } else if !AllPlayers(game.clients) {
      FlushUntilUnbuffered(server, game);
      crashed := true;
    } else {
      StepEngine(server, game, rules);
      crashed := false;
    }
    AdvancedFrom@start(game, crashed, memo, rules);
  }

  /** The flush of an update that meets a client without a buffer. */
  method FlushUntilUnbuffered(server: Server, game: Game)
    requires server.Valid() && game in server.games && !AllPlayers(game.clients)
    modifies InputsSetOf(game.clients)`queued, InputsSetOf(game.clients)`frame
    ensures server.Valid()
    ensures Flushed(PlayerInputs(game.clients[..FirstUnbuffered(game.clients)]))
    ensures forall j :: FirstUnbuffered(game.clients) < j < |game.clients| && game.clients[j].variant.Player? ==>
              game.clients[j].variant.inputs.queued == old(game.clients[j].variant.inputs.queued)
              && game.clients[j].variant.inputs.frame == old(game.clients[j].variant.inputs.frame)
  {
    var k := FirstUnbuffered(game.clients);
    PlayerInputsDistinct(server.clients, server.games, game, k);
    PlayersApart(server.clients, server.games, game);
    var xs := PlayerInputs(game.clients[..k]);
    assert forall j :: k < j < |game.clients| && game.clients[j].variant.Player? ==> game.clients[j].variant.inputs !in xs;
    ApplyAll(xs);
  }

  /** Two players of one registered game have different input buffers. */
  lemma PlayersApart(cs: seq<Client>, gs: seq<Game>, g: Game)
    requires Registered(cs, gs) && g in gs
    ensures forall i, j ::
              && 0 <= i < |g.clients| && 0 <= j < |g.clients| && i != j
              && g.clients[i].variant.Player? && g.clients[j].variant.Player?
              ==> g.clients[i].variant.inputs != g.clients[j].variant.inputs
  {
    DistinctPairs(g.clients);
    forall i, j | 0 <= i < |g.clients| && 0 <= j < |g.clients| && i != j &&
                  g.clients[i].variant.Player? && g.clients[j].variant.Player?
      ensures g.clients[i].variant.inputs != g.clients[j].variant.inputs
    {
      assert g.clients[i] in cs && g.clients[j] in cs;
    }
  }

  /** `game.gameCore.update(...)` over the buffers of the game's players. */
  method StepEngine(server: Server, game: Game, rules: Rules)
    requires server.Valid() && game in server.games && game.state == InProgress && AllPlayers(game.clients)
    modifies game.gameCore`turn, game.gameCore`selected, game.gameCore`board
    modifies InputsSetOf(game.clients)`queued, InputsSetOf(game.clients)`frame
    ensures server.Valid()
    ensures Flushed(PlayerInputs(game.clients))
    ensures game.gameCore.EngineState()
            == Engine.Step(old(game.gameCore.EngineState()),
                           Engine.SeatClick(Frames(PlayerInputs(game.clients)), old(game.gameCore.turn), rules.inBounds),
                           rules)
  {
    label start:
    RunEngine(server, game, rules);
    TurnKept@start(server.clients, server.games, game);
  }

  /** The call itself: the engine moves as `Engine.Step` says, and its turn
      stays a seat. */
  method RunEngine(server: Server, game: Game, rules: Rules)
    requires server.Valid() && game in server.games && game.state == InProgress && AllPlayers(game.clients)
    modifies game.gameCore`turn, game.gameCore`selected, game.gameCore`board
    modifies InputsSetOf(game.clients)`queued, InputsSetOf(game.clients)`frame
    ensures game.gameCore != null && 0 <= game.gameCore.turn <= 1
    ensures Flushed(PlayerInputs(game.clients))
    ensures game.gameCore.EngineState()
            == Engine.Step(old(game.gameCore.EngineState()),
                           Engine.SeatClick(Frames(PlayerInputs(game.clients)), old(game.gameCore.turn), rules.inBounds),
                           rules)
  {
    var inputsList := PlayerInputs(game.clients);
    assert game.clients[..|game.clients|] == game.clients;
    PlayerInputsDistinct(server.clients, server.games, game, |game.clients|);
    game.gameCore.Update(inputsList, rules);
  }

  /** The game's update message, sent to each of its clients. */
  method Publish(game: Game, rules: Rules) returns (update: Message)
    requires game.state == InProgress ==> game.gameCore != null
    modifies game.clients`colonyBot, SocketsOf(game.clients)`sent
    ensures update == GameUpdate(Names(game.clients), GameData(game, rules), GameMessage(game))
    ensures Broadcast(game.clients, |game.clients|, update, old(Outboxes(game.clients)), old(BotEngines(game.clients)))
    ensures forall g: Game {:trigger g.state} {:trigger g.clients} {:trigger g.gameCore} {:trigger g.turn} {:trigger g.selected} {:trigger g.board} ::
              old(allocated(g)) ==>
                && g.state == old(g.state) && g.clients == old(g.clients) && g.gameCore == old(g.gameCore)
                && g.turn == old(g.turn) && g.selected == old(g.selected) && g.board == old(g.board)
    ensures forall x: Inputs {:trigger x.queued} {:trigger x.frame} :: old(allocated(x)) ==> x.queued == old(x.queued) && x.frame == old(x.frame)
  {
    update := GameUpdate(Names(game.clients), GameData(game, rules), GameMessage(game));
    label before:
    var sentTo := Client.SendToClients(game.clients, update);
    NamesKept@before(game.clients);
  }

  /** `ClientInterface.sendToClients` to registered clients, which leaves
      the registry as it is. */
  method Send(server: Server, cs: seq<Client>, m: Message) returns (sentTo: nat)
    requires server.Valid() && forall c :: c in cs ==> c in server.clients
    modifies cs`colonyBot, SocketsOf(cs)`sent
    ensures server.Valid() && Delivery(cs, sentTo, m)
    ensures Names(server.clients) == old(Names(server.clients)) && Summaries(server.games) == old(Summaries(server.games))
    ensures forall g: Game {:trigger g.state} {:trigger g.clients} {:trigger g.gameCore} {:trigger g.turn} {:trigger g.selected} {:trigger g.board} ::
              old(allocated(g)) ==>
                && g.state == old(g.state) && g.clients == old(g.clients) && g.gameCore == old(g.gameCore)
                && g.turn == old(g.turn) && g.selected == old(g.selected) && g.board == old(g.board)
    ensures forall x: Inputs {:trigger x.queued} {:trigger x.frame} :: old(allocated(x)) ==> x.queued == old(x.queued) && x.frame == old(x.frame)
  {
    label before:
    sentTo := Client.SendToClients(cs, m);
    RegisteredStays(server.clients, server.games);
    NamesKept@before(server.clients);
    SummariesKept@before(server.games);
  }

  /** What `sendToClients(cs, m)` did when it sent to the first `sentTo`
      clients: those sends did not throw, the next one did, and the
      outboxes and engines record exactly those sends. */
  twostate predicate Delivery(cs: seq<Client>, sentTo: nat, m: Message)
    reads cs, SocketsOf(cs)
  {
    && sentTo <= |cs|
    && (forall j :: 0 <= j < sentTo ==> !(cs[j].variant.Bot? && SnapshotTiles(m) == Throws))
    && (sentTo < |cs| ==> cs[sentTo].variant.Bot? && SnapshotTiles(m) == Throws)
    && Broadcast(cs, sentTo, m, old(Outboxes(cs)), old(BotEngines(cs)))
  }

  /** The sockets of a part of a client list are sockets of the list. */
  lemma SocketsSub(cs: seq<Client>, all: seq<Client>)
    requires forall c :: c in cs ==> c in all
    ensures SocketsOf(cs) <= SocketsOf(all)
  {
    forall s | s in SocketsOf(cs) ensures s in SocketsOf(all)
    {
      var c :| c in cs && c.variant.Player? && c.variant.netClient == s;
    }
  }

  /** The inputs of a part of a client list are inputs of the list. */
  lemma InputsSub(cs: seq<Client>, all: seq<Client>)
    requires forall c :: c in cs ==> c in all
    ensures InputsSetOf(cs) <= InputsSetOf(all)
  {
    forall x | x in InputsSetOf(cs) ensures x in InputsSetOf(all)
    {
      var c :| c in cs && c.variant.Player? && c.variant.inputs == x;
    }
  }

  /** What the game at `g` was sent in this tick: its update, built from
      the game as it now stands, and the update did not throw. */
  ghost predicate Updated(g: Game, m: Message, rules: Rules)
    reads g`state, g`clients, g`gameCore, g.clients`name, ({g.gameCore} - {null})`turn
    reads ({g.gameCore} - {null})`selected, ({g.gameCore} - {null})`board
  {
    && (g.state == InProgress ==> g.gameCore != null && AllPlayers(g.clients))
    && m == GameUpdate(Names(g.clients), GameData(g, rules), GameMessage(g))
  }

  /** An input buffer's contents: its queued raw inputs and its frame. */
  datatype Buffer = Buffer(queued: seq<RawInput>, frame: Frame)

  /** The engines and the players' input buffers as a tick found them. */
  datatype Memo = Memo(engines: map<Game, Engine.State>, buffers: map<Inputs, Buffer>)

  /** The registry's engines and its players' buffers as they are now. */
  ghost function Capture(server: Server): (memo: Memo)
    reads server`clients, server`games, server.games`gameCore
    reads server.Cores()`turn, server.Cores()`selected, server.Cores()`board
    reads InputsSetOf(server.clients)`queued, InputsSetOf(server.clients)`frame
    ensures AsFound(server, memo)
  {
    Memo(map e: Game | e in server.Cores() :: e.EngineState(),
         map x | x in InputsSetOf(server.clients) :: Buffer(x.queued, x.frame))
  }

  /** Every engine and every player's buffer of the registry holds what
      `memo` recorded for it. */
  ghost predicate AsFound(server: Server, memo: Memo)
    reads server`clients, server`games, server.games`gameCore
    reads server.Cores()`turn, server.Cores()`selected, server.Cores()`board
    reads InputsSetOf(server.clients)`queued, InputsSetOf(server.clients)`frame
  {
    && (forall e: Game {:trigger EngineAsFound(e, memo)} :: e in server.Cores() ==> EngineAsFound(e, memo))
    && (forall x {:trigger BufferAsFound(x, memo)} :: x in InputsSetOf(server.clients) ==> BufferAsFound(x, memo))
  }

  /** The engine `e` is in the state `memo` recorded. */
  ghost predicate EngineAsFound(e: Game, memo: Memo)
    reads e`turn, e`selected, e`board
  {
    e in memo.engines && memo.engines[e] == e.EngineState()
  }

  /** The buffer `x` holds what `memo` recorded. */
  ghost predicate BufferAsFound(x: Inputs, memo: Memo)
    reads x`queued, x`frame
  {
    x in memo.buffers && memo.buffers[x] == Buffer(x.queued, x.frame)
  }

  /** The buffer `x` has been flushed once since `memo` recorded it. */
  ghost predicate FlushedSince(x: Inputs, memo: Memo)
    reads x`queued, x`frame
  {
    && x in memo.buffers && x.queued == []
    && x.frame == x.rules.apply(memo.buffers[x].frame, memo.buffers[x].queued)
  }

  /** The game `g` has not been updated in this tick: its engine and its
      players' buffers are as the tick found them. */
  ghost predicate Idle(g: Game, memo: Memo)
    reads g`gameCore, g`clients, ({g.gameCore} - {null})`turn, ({g.gameCore} - {null})`selected
    reads ({g.gameCore} - {null})`board, InputsSetOf(g.clients)
  {
    && (g.gameCore != null ==> EngineAsFound(g.gameCore, memo))
    && (forall c :: c in g.clients && c.variant.Player? ==> BufferAsFound(c.variant.inputs, memo))
  }

  /** The game `g` has had this tick's `gameCore.update`, measured against
      what the tick found: when in progress with only players, each
      player's buffer was flushed and the engine took `Engine.Step` on the
      click of the seat whose turn it was; when in progress with a client
      that has no buffer, the players before that client were flushed, the
      players after it kept their buffers and the engine did not move;
      otherwise the game is idle. */
  ghost predicate Advanced(g: Game, memo: Memo, rules: Rules)
    reads g`state, g`gameCore, g`clients, ({g.gameCore} - {null})`turn, ({g.gameCore} - {null})`selected
    reads ({g.gameCore} - {null})`board, InputsSetOf(g.clients)
  {
    if g.state != InProgress then Idle(g, memo)
    else
      && g.gameCore != null && g.gameCore in memo.engines && Engine.Valid(memo.engines[g.gameCore])
      && var before := memo.engines[g.gameCore];
         if AllPlayers(g.clients) then
           && (forall c :: c in g.clients ==> FlushedSince(c.variant.inputs, memo))
           && g.gameCore.EngineState()
              == Engine.Step(before, Engine.SeatClick(Frames(PlayerInputs(g.clients)), before.turn, rules.inBounds), rules)
         else
           && (forall k :: 0 <= k < FirstUnbuffered(g.clients) ==> FlushedSince(g.clients[k].variant.inputs, memo))
           && (forall k :: FirstUnbuffered(g.clients) < k < |g.clients| && g.clients[k].variant.Player? ==>
                 BufferAsFound(g.clients[k].variant.inputs, memo))
           && g.gameCore.EngineState() == before
  }

  /** The game `g` is advanced if `stepped`, and idle otherwise. */
  ghost predicate Progress(g: Game, stepped: bool, memo: Memo, rules: Rules)
    reads g`state, g`gameCore, g`clients, ({g.gameCore} - {null})`turn, ({g.gameCore} - {null})`selected
    reads ({g.gameCore} - {null})`board, InputsSetOf(g.clients)
  {
    if stepped then Advanced(g, memo, rules) else Idle(g, memo)
  }

  /** The input buffers of the players of the games `gs`. */
  ghost function BuffersOf(gs: seq<Game>): set<Inputs>
    reads gs`clients
  {
    set g, c | g in gs && c in g.clients && c.variant.Player? :: c.variant.inputs
  }

  /** The games' buffers depend only on the games' client lists. */
  twostate lemma BuffersKept(new gs: seq<Game>)
    requires old(allocated(gs))
    requires forall g :: g in gs ==> g.clients == old(g.clients)
    ensures BuffersOf(gs) == old(BuffersOf(gs))
  {
  }

  /** The game at index `j` of `gs` has had this tick's update if it is
      among the first `n`, and is idle otherwise. */
  ghost predicate ProgressAt(gs: seq<Game>, j: nat, n: nat, memo: Memo, rules: Rules)
    requires j < |gs|
    reads {gs[j]}`state, {gs[j]}`gameCore, {gs[j]}`clients, ({gs[j].gameCore} - {null})`turn
    reads ({gs[j].gameCore} - {null})`selected, ({gs[j].gameCore} - {null})`board, InputsSetOf(gs[j].clients)
  {
    Progress(gs[j], j < n, memo, rules)
  }

  /** The first `n` games of `gs` have had this tick's update, and the
      rest are idle. */
  ghost predicate Stepped(gs: seq<Game>, n: nat, memo: Memo, rules: Rules)
    reads gs`state, gs`gameCore, gs`clients, CoresOf(gs)`turn, CoresOf(gs)`selected, CoresOf(gs)`board
    reads BuffersOf(gs)
  {
    forall j: nat {:trigger ProgressAt(gs, j, n, memo, rules)} :: j < |gs| ==> ProgressAt(gs, j, n, memo, rules)
  }

  /** How many games a tick that ended at `end` reached, out of `count`. */
  function Reached(end: TickEnd, count: nat): nat
  {
    match end
    case GameCrash(index) => index + 1
    case Completed => count
    case _ => 0
  }

  /** A registry as `memo` recorded it has every game idle. */
  lemma IdleFromFound(server: Server, memo: Memo, rules: Rules)
    requires server.Valid() && AsFound(server, memo)
    ensures Stepped(server.games, 0, memo, rules)
  {
    CoresListed(server);
    forall j: nat | j < |server.games| ensures ProgressAt(server.games, j, 0, memo, rules) {
      GameFrames(server, j);
    }
  }

  /** Two registered games share no player, and so no input buffer. */
  lemma BuffersApart(server: Server, i: nat)
    requires server.Valid() && i < |server.games|
    ensures forall j, c :: 0 <= j < |server.games| && j != i && c in server.games[j].clients && c.variant.Player? ==>
              c.variant.inputs !in InputsSetOf(server.games[i].clients)
  {
    DistinctPairs(server.games);
    var g := server.games[i];
    assert Members(g, server.clients);
    forall j, c | 0 <= j < |server.games| && j != i && c in server.games[j].clients && c.variant.Player?
      ensures c.variant.inputs !in InputsSetOf(g.clients)
    {
      assert Members(server.games[j], server.clients);
      forall d | d in g.clients && d.variant.Player? ensures d.variant.inputs != c.variant.inputs {
        assert d.game == g && c.game == server.games[j] && d in server.clients && c in server.clients;
      }
    }
  }

  /** A game whose engine, member list, state and buffers are as they were
      stays as far along as it was. */
  twostate lemma ProgressKept(new g: Game, new stepped: bool, new memo: Memo, new rules: Rules)
    requires old(allocated(g)) && old(allocated(memo)) && old(Progress(g, stepped, memo, rules))
    requires g.state == old(g.state) && g.clients == old(g.clients) && g.gameCore == old(g.gameCore)
    requires g.gameCore != null ==> g.gameCore.EngineState() == old(g.gameCore.EngineState())
    requires forall c :: c in g.clients && c.variant.Player? ==>
               c.variant.inputs.queued == old(c.variant.inputs.queued) && c.variant.inputs.frame == old(c.variant.inputs.frame)
    ensures Progress(g, stepped, memo, rules)
  {
    if stepped && g.state == InProgress {
      assert old(Advanced(g, memo, rules));
    } else {
      IdleKept(g, memo);
    }
  }

  /** A game whose engine, member list and buffers are as they were stays
      idle if it was. */
  twostate lemma IdleKept(new g: Game, new memo: Memo)
    requires old(allocated(g)) && old(allocated(memo)) && old(Idle(g, memo))
    requires g.clients == old(g.clients) && g.gameCore == old(g.gameCore)
    requires g.gameCore != null ==> g.gameCore.EngineState() == old(g.gameCore.EngineState())
    requires forall c :: c in g.clients && c.variant.Player? ==>
               c.variant.inputs.queued == old(c.variant.inputs.queued) && c.variant.inputs.frame == old(c.variant.inputs.frame)
    ensures Idle(g, memo)
  {
  }

  /** Games whose engines, member lists, states and buffers are as they
      were stay as far along as they were. */
  twostate lemma SteppedKept(new server: Server, new n: nat, new memo: Memo, new rules: Rules)
    requires old(allocated(server)) && old(allocated(memo)) && server.Valid()
    requires old(Stepped(server.games, n, memo, rules))
    requires server.games == old(server.games) && server.clients == old(server.clients)
    requires forall g: Game {:trigger g.state} {:trigger g.clients} {:trigger g.gameCore} {:trigger g.turn} {:trigger g.selected} {:trigger g.board} ::
               old(allocated(g)) ==>
                 && g.state == old(g.state) && g.clients == old(g.clients) && g.gameCore == old(g.gameCore)
                 && g.turn == old(g.turn) && g.selected == old(g.selected) && g.board == old(g.board)
    requires forall x: Inputs {:trigger x.queued} {:trigger x.frame} :: old(allocated(x)) ==> x.queued == old(x.queued) && x.frame == old(x.frame)
    ensures Stepped(server.games, n, memo, rules)
  {
    CoresListed(server);
    forall j: nat | j < |server.games| ensures ProgressAt(server.games, j, n, memo, rules) {
      assert old(ProgressAt(server.games, j, n, memo, rules));
      GameFrames(server, j);
      ProgressKept(server.games[j], j < n, memo, rules);
    }
  }

  /** A step of the game at index `i`, which leaves the other games'
      engines and buffers alone, advances the first `i + 1` games. */
  twostate lemma OthersProgress(new server: Server, new i: nat, new memo: Memo, new rules: Rules)
    requires old(allocated(server)) && old(allocated(memo)) && server.Valid() && i < |server.games|
    requires old(Stepped(server.games, i, memo, rules)) && Advanced(server.games[i], memo, rules)
    requires server.games == old(server.games)
    requires unchanged(server.games`state, server.games`clients, server.games`gameCore)
    requires forall j :: 0 <= j < |server.games| && j != i && server.games[j].gameCore != null ==>
               server.games[j].gameCore.EngineState() == old(server.games[j].gameCore.EngineState())
    requires forall x :: old(allocated(x)) && x in InputsSetOf(server.clients) && x !in InputsSetOf(server.games[i].clients) ==>
               x.queued == old(x.queued) && x.frame == old(x.frame)
    ensures Stepped(server.games, i + 1, memo, rules)
  {
    BuffersApart(server, i);
    var n := i + 1;
    forall j: nat | j < |server.games| ensures ProgressAt(server.games, j, n, memo, rules) {
      if j != i {
        assert old(ProgressAt(server.games, j, i, memo, rules));
        GameFrames(server, j);
        ProgressKept(server.games[j], j < i, memo, rules);
      }
    }
  }

  /** What `Advance` did to an idle game is what `Advanced` describes. */
  twostate lemma AdvancedFrom(new g: Game, new crashed: bool, new memo: Memo, new rules: Rules)
    requires old(allocated(g)) && old(allocated(memo)) && old(Idle(g, memo))
    requires g.state == old(g.state) && g.clients == old(g.clients) && g.gameCore == old(g.gameCore)
    requires g.state == InProgress ==> g.gameCore != null && old(0 <= g.gameCore.turn <= 1)
    requires crashed <==> g.state == InProgress && !AllPlayers(g.clients)
    requires g.state != InProgress ==> unchanged(InputsSetOf(g.clients)) && unchanged(({g.gameCore} - {null}))
    requires crashed ==>
               && Flushed(PlayerInputs(g.clients[..FirstUnbuffered(g.clients)]))
               && (forall j :: FirstUnbuffered(g.clients) < j < |g.clients| && g.clients[j].variant.Player? ==>
                     g.clients[j].variant.inputs.queued == old(g.clients[j].variant.inputs.queued)
                     && g.clients[j].variant.inputs.frame == old(g.clients[j].variant.inputs.frame))
               && unchanged(g.gameCore)
    requires g.state == InProgress && !crashed ==>
               && Flushed(PlayerInputs(g.clients))
               && g.gameCore.EngineState()
                  == Engine.Step(old(g.gameCore.EngineState()),
                                 Engine.SeatClick(Frames(PlayerInputs(g.clients)), old(g.gameCore.turn), rules.inBounds),
                                 rules)
    ensures Advanced(g, memo, rules)
  {
    if g.state == InProgress && crashed {
      var k := FirstUnbuffered(g.clients);
      forall j | 0 <= j < k ensures FlushedSince(g.clients[j].variant.inputs, memo) {
        assert PlayerInputs(g.clients[..k])[j] == g.clients[j].variant.inputs;
        assert g.clients[j] in g.clients;
      }
    } else if g.state == InProgress {
      forall c | c in g.clients ensures FlushedSince(c.variant.inputs, memo) {
        var j :| 0 <= j < |g.clients| && g.clients[j] == c;
        assert PlayerInputs(g.clients)[j] == c.variant.inputs;
      }
    }
  }

  /** The updates sent to the first games stay theirs across a step that
      changes only another game's engine. */
  twostate lemma UpdatesKept(new gs: seq<Game>, new updates: seq<Message>, new rules: Rules)
    requires old(allocated(gs)) && |updates| <= |gs|
    requires forall j :: 0 <= j < |updates| ==> old(Updated(gs[j], updates[j], rules))
    requires forall j :: 0 <= j < |updates| ==>
               old(gs[j].state) == gs[j].state && old(gs[j].clients) == gs[j].clients && old(gs[j].gameCore) == gs[j].gameCore
    requires forall j, c :: 0 <= j < |updates| && c in gs[j].clients ==> old(c.name) == c.name
    requires forall j :: 0 <= j < |updates| && gs[j].gameCore != null ==>
               && old(gs[j].gameCore.turn) == gs[j].gameCore.turn && old(gs[j].gameCore.selected) == gs[j].gameCore.selected
               && old(gs[j].gameCore.board) == gs[j].gameCore.board
    ensures forall j :: 0 <= j < |updates| ==> Updated(gs[j], updates[j], rules)
  { }

  /** No other registered game shares the engine of the game at index `i`. */
  lemma CoresApart(server: Server, i: nat)
    requires server.Valid() && i < |server.games|
    ensures forall j :: 0 <= j < |server.games| && j != i && server.games[j].gameCore != null ==>
              server.games[j].gameCore != server.games[i].gameCore
  {
    DistinctPairs(server.games);
  }

  /** The engine step of the tick for the game at index `i`, which leaves
      what the earlier games were sent as it was. */
  method AdvanceAt(server: Server, i: nat, ghost updates: seq<Message>, ghost memo: Memo, rules: Rules)
    returns (crashed: bool)
    requires server.Valid() && |updates| <= i < |server.games|
    requires forall j :: 0 <= j < |updates| ==> Updated(server.games[j], updates[j], rules)
    requires Stepped(server.games, i, memo, rules)
    modifies ({server.games[i].gameCore} - {null})`turn, ({server.games[i].gameCore} - {null})`selected
    modifies ({server.games[i].gameCore} - {null})`board
    modifies InputsSetOf(server.games[i].clients)`queued, InputsSetOf(server.games[i].clients)`frame
    ensures server.Valid()
    ensures crashed <==> server.games[i].state == InProgress && !AllPlayers(server.games[i].clients)
    ensures forall j :: 0 <= j < |updates| ==> Updated(server.games[j], updates[j], rules)
    ensures Stepped(server.games, i + 1, memo, rules)
  {
    CoresApart(server, i);
    label start:
    crashed := StepAt(server, i, memo, rules);
    UpdatesKept@start(server.games, updates, rules);
  }

  /** The engine step of the tick for the game at index `i`, which
      advances the first `i + 1` games. */
  method StepAt(server: Server, i: nat, ghost memo: Memo, rules: Rules) returns (crashed: bool)
    requires server.Valid() && i < |server.games|
    requires Stepped(server.games, i, memo, rules)
    modifies ({server.games[i].gameCore} - {null})`turn, ({server.games[i].gameCore} - {null})`selected
    modifies ({server.games[i].gameCore} - {null})`board
    modifies InputsSetOf(server.games[i].clients)`queued, InputsSetOf(server.games[i].clients)`frame
    ensures server.Valid()
    ensures crashed <==> server.games[i].state == InProgress && !AllPlayers(server.games[i].clients)
    ensures Stepped(server.games, i + 1, memo, rules)
  {
    var game := server.games[i];
    CoresApart(server, i);
    assert ProgressAt(server.games, i, i, memo, rules);
    label start:
    crashed := Advance(server, game, memo, rules);
    OthersProgress@start(server, i, memo, rules);
  }

  /** The broadcast of the tick for the game at index `i`, after its engine
      step did not throw; what the earlier games were sent stays as it was. */
  method PublishAt(server: Server, i: nat, ghost updates: seq<Message>, rules: Rules) returns (update: Message)
    requires server.Valid() && |updates| <= i < |server.games|
    requires server.games[i].state == InProgress ==> AllPlayers(server.games[i].clients)
    requires forall j :: 0 <= j < |updates| ==> Updated(server.games[j], updates[j], rules)
    modifies server.games[i].clients`colonyBot, SocketsOf(server.games[i].clients)`sent
    ensures server.Valid()
    ensures Updated(server.games[i], update, rules)
    ensures forall j :: 0 <= j < |updates| ==> Updated(server.games[j], updates[j], rules)
    ensures forall g: Game {:trigger g.state} {:trigger g.clients} {:trigger g.gameCore} {:trigger g.turn} {:trigger g.selected} {:trigger g.board} ::
              old(allocated(g)) ==>
                && g.state == old(g.state) && g.clients == old(g.clients) && g.gameCore == old(g.gameCore)
                && g.turn == old(g.turn) && g.selected == old(g.selected) && g.board == old(g.board)
    ensures forall x: Inputs {:trigger x.queued} {:trigger x.frame} :: old(allocated(x)) ==> x.queued == old(x.queued) && x.frame == old(x.frame)
  {
    label start:
    update := Publish(server.games[i], rules);
    RegisteredStays@start(server.clients, server.games);
  }

  /** One tick of the timer: the sweep, then the lobby broadcast, then, in
      list order, each game's update (when in progress) and its state sent
      to its clients. */
  method Tick(server: Server, rules: Rules)
    returns (end: TickEnd, alive: seq<bool>, lobby: Option<Message>, recipients: seq<Client>, updates: seq<Message>)
    requires server.Valid()
    modifies server`clients, server`games, server.clients`game, server.clients`state, server.clients`colonyBot
    modifies server.games`clients, server.games`state, SocketsOf(server.clients)`sent
    modifies server.Cores()`turn, server.Cores()`selected, server.Cores()`board
    modifies InputsSetOf(server.clients)`queued, InputsSetOf(server.clients)`frame
    ensures server.Valid()
    ensures end == SweepCrash <==> !old(server.BotsSeated())
    ensures end == SweepCrash ==>
              && server.clients == old(server.clients) && server.games == old(server.games)
              && unchanged(server.clients) && unchanged(server.games) && unchanged(SocketsOf(server.clients))
              && lobby.None? && recipients == [] && updates == []
    ensures end != SweepCrash ==>
              && TickedAfterSweep(server, old(server.clients), old(server.games), alive, lobby, recipients, end, updates)
              && Verdicts(old(server.clients), alive, old(Snap(server.clients, server.games)))
    ensures forall j :: 0 <= j < |updates| ==> Updated(server.games[j], updates[j], rules)
    ensures Stepped(server.games, Reached(end, |server.games|), old(Capture(server)), rules)
    ensures forall x: Inputs {:trigger x.queued} :: old(allocated(x)) && x !in BuffersOf(server.games) ==> x.queued == old(x.queued)
    ensures forall x: Inputs {:trigger x.frame} :: old(allocated(x)) && x !in BuffersOf(server.games) ==> x.frame == old(x.frame)
  {
    if !server.BotsSeated() {
      end, alive, lobby, recipients, updates := SweepCrash, [], None, [], [];
      IdleFromFound(server, Capture(server), rules);
    } else {
      ghost var seated;
      end, alive, lobby, recipients, updates, seated := SweptTick(server, rules);
    }
  }

  /** The tick after a sweep that did not throw. `seated` is the set of
      the buffers of the games' players after it; no other buffer changes. */
  method SweptTick(server: Server, rules: Rules)
    returns (end: TickEnd, alive: seq<bool>, lobby: Option<Message>, recipients: seq<Client>, updates: seq<Message>,
             ghost seated: set<Inputs>)
    requires server.Valid() && server.BotsSeated()
    modifies server`clients, server`games, server.clients`game, server.clients`state, server.clients`colonyBot
    modifies server.games`clients, server.games`state, SocketsOf(server.clients)`sent
    modifies server.Cores()`turn, server.Cores()`selected, server.Cores()`board
    modifies InputsSetOf(server.clients)`queued, InputsSetOf(server.clients)`frame
    ensures server.Valid()
    ensures TickedAfterSweep(server, old(server.clients), old(server.games), alive, lobby, recipients, end, updates)
    ensures Verdicts(old(server.clients), alive, old(Snap(server.clients, server.games)))
    ensures forall j :: 0 <= j < |updates| ==> Updated(server.games[j], updates[j], rules)
    ensures Stepped(server.games, Reached(end, |server.games|), old(Capture(server)), rules)
    ensures seated == BuffersOf(server.games)
    ensures forall x: Inputs {:trigger x.queued} :: old(allocated(x)) && x !in seated ==> x.queued == old(x.queued)
    ensures forall x: Inputs {:trigger x.frame} :: old(allocated(x)) && x !in seated ==> x.frame == old(x.frame)
  {
    ghost var memo := Capture(server);
    alive := SweepFound(server, rules, memo);
    seated := BuffersOf(server.games);
    label swept:
    end, lobby, recipients, updates := AfterSweep(server, rules, old(server.clients), old(server.games), alive, memo, seated);
    BuffersKept@swept(server.games);
  }

  /** The sweep of a tick, with what it leaves for the broadcasts: the
      surviving games are idle against `memo`, and the survivors'
      sockets, engines and buffers are among those found. */
  method SweepFound(server: Server, rules: Rules, ghost memo: Memo) returns (alive: seq<bool>)
    requires server.Valid() && server.BotsSeated() && AsFound(server, memo)
    modifies server`clients, server`games, server.clients`game, server.clients`state
    modifies server.games`clients, server.games`state
    ensures server.Valid()
    ensures |alive| == |old(server.clients)|
    ensures Verdicts(old(server.clients), alive, old(Snap(server.clients, server.games)))
    ensures server.clients == Keep(old(server.clients), alive) && server.games == Populated(old(server.games))
    ensures Stepped(server.games, 0, memo, rules)
    ensures forall k :: 0 <= k < |server.clients| ==> server.clients[k] in old(server.clients)
    ensures SocketsOf(server.clients) <= old(SocketsOf(server.clients)) && server.Cores() <= old(server.Cores())
    ensures BuffersOf(server.games) <= old(InputsSetOf(server.clients))
    ensures forall x: Inputs {:trigger x.queued} :: old(allocated(x)) ==> x.queued == old(x.queued)
    ensures forall x: Inputs {:trigger x.frame} :: old(allocated(x)) ==> x.frame == old(x.frame)
  {
    alive := SweepForTick(server);
    SweptWithin(server, alive);
    FoundKept(server, memo);
    IdleFromFound(server, memo, rules);
    BuffersListed(server);
  }

  /** The broadcasts of a tick whose sweep of `clients` and `games` left
      the server's lists. */
  method AfterSweep(server: Server, rules: Rules, ghost clients: seq<Client>, ghost games: seq<Game>,
                    ghost alive: seq<bool>, ghost memo: Memo, ghost buffers: set<Inputs>)
    returns (end: TickEnd, lobby: Option<Message>, recipients: seq<Client>, updates: seq<Message>)
    requires server.Valid() && |alive| == |clients| && Stepped(server.games, 0, memo, rules)
    requires server.clients == Keep(clients, alive) && server.games == Populated(games) && buffers == BuffersOf(server.games)
    modifies server.clients`colonyBot, SocketsOf(server.clients)`sent
    modifies server.Cores()`turn, server.Cores()`selected, server.Cores()`board
    modifies buffers`queued, buffers`frame
    ensures server.Valid()
    ensures TickedAfterSweep(server, clients, games, alive, lobby, recipients, end, updates)
    ensures forall j :: 0 <= j < |updates| ==> Updated(server.games[j], updates[j], rules)
    ensures Stepped(server.games, Reached(end, |server.games|), memo, rules)
    ensures forall x: Inputs {:trigger x.queued} {:trigger x.frame} :: old(allocated(x)) && x !in buffers ==>
              x.queued == old(x.queued) && x.frame == old(x.frame)
  {
    var message;
    label start:
    end, message, recipients, updates := Broadcasts(server, rules, memo, buffers);
    StillPopulated@start(server, games);
    lobby := Some(message);
  }

  /** A tick that got past the sweep of `clients` and `games`: the lists are the swept lists, the
      lobby message describes them, and the tick ended as `Ended` says. */
  ghost predicate TickedAfterSweep(server: Server, clients: seq<Client>, games: seq<Game>, alive: seq<bool>,
                                   lobby: Option<Message>, recipients: seq<Client>, end: TickEnd, updates: seq<Message>)
    reads server, server.clients, server.games, games
  {
    && |alive| == |clients|
    && server.clients == Keep(clients, alive)
    && server.games == Populated(games)
    && lobby == Some(LobbyUpdate(|server.clients|, Names(server.clients), Summaries(server.games)))
    && (forall c :: c in recipients ==> c in server.clients)
    && |updates| <= |server.games|
    && Ended(server, end, recipients, updates)
  }

  /** The sweep at the start of a tick, seen from the rest of the tick:
      the registry stays valid, each client got the verdict `isAlive()`
      gave at its visit, and the lists are the filtered lists. */
  method SweepForTick(server: Server) returns (alive: seq<bool>)
    requires server.Valid() && server.BotsSeated()
    modifies server`clients, server`games, server.clients`game, server.clients`state
    modifies server.games`clients, server.games`state
    ensures server.Valid()
    ensures |alive| == |old(server.clients)|
    ensures Verdicts(old(server.clients), alive, old(Snap(server.clients, server.games)))
    ensures server.clients == Keep(old(server.clients), alive) && server.games == Populated(old(server.games))
    ensures forall x: Inputs {:trigger x.queued} :: old(allocated(x)) ==> x.queued == old(x.queued)
    ensures forall x: Inputs {:trigger x.frame} :: old(allocated(x)) ==> x.frame == old(x.frame)
  {
    alive := server.CleanClosedClientsAndGames();
  }

  /** Filtering the lists, and leaving the engines alone, leaves no socket,
      buffer or engine that was not there before. */
  twostate lemma SweptWithin(new server: Server, new alive: seq<bool>)
    requires old(allocated(server))
    requires |alive| == |old(server.clients)| && server.clients == Keep(old(server.clients), alive)
    requires server.games == Populated(old(server.games))
    requires forall g :: g in old(server.games) ==> g.gameCore == old(g.gameCore)
    ensures forall k :: 0 <= k < |server.clients| ==> server.clients[k] in old(server.clients)
    ensures SocketsOf(server.clients) <= old(SocketsOf(server.clients))
    ensures InputsSetOf(server.clients) <= old(InputsSetOf(server.clients))
    ensures server.Cores() <= old(server.Cores())
  {
    SocketsSub(server.clients, old(server.clients));
    InputsSub(server.clients, old(server.clients));
    CoresShrink(server);
  }

  /** Dropping games, and leaving the engines of the rest alone, leaves no
      engine that was not there before. */
  twostate lemma CoresShrink(new server: Server)
    requires old(allocated(server))
    requires server.games == Populated(old(server.games))
    requires forall g :: g in old(server.games) ==> g.gameCore == old(g.gameCore)
    ensures server.Cores() <= old(server.Cores())
  {
    forall x | x in server.Cores() ensures x in old(server.Cores()) {
      var g :| g in server.games && g.gameCore != null && g.gameCore == x;
      assert g in old(server.games) && old(g.gameCore) == x;
    }
  }

  /** A step that leaves the engines and the buffers alone, and brings in
      no engine or buffer that was not there, leaves them as found. */
  twostate lemma FoundKept(new server: Server, new memo: Memo)
    requires old(allocated(server)) && old(allocated(memo)) && old(AsFound(server, memo))
    requires server.Cores() <= old(server.Cores()) && InputsSetOf(server.clients) <= old(InputsSetOf(server.clients))
    requires forall e: Game :: e in old(server.Cores()) ==> e.EngineState() == old(e.EngineState())
    requires forall x :: x in old(InputsSetOf(server.clients)) ==> x.queued == old(x.queued) && x.frame == old(x.frame)
    ensures AsFound(server, memo)
  {
  }

  /** Which games still have clients depends only on their client lists. */
  twostate lemma StillPopulated(new server: Server, new games: seq<Game>)
    requires old(allocated(server)) && old(allocated(games))
    requires old(server.games == Populated(games)) && server.games == old(server.games)
    requires forall g: Game {:trigger g.clients} :: old(allocated(g)) ==> g.clients == old(g.clients)
    ensures server.games == Populated(games)
  { }

  /** How a tick that got past the sweep ended: at the lobby broadcast
      exactly when a bot is among its recipients, otherwise at the first
      game in progress with a client that is not a player, or after every
      game; one update for each game before that point. */
  ghost predicate Ended(server: Server, end: TickEnd, recipients: seq<Client>, updates: seq<Message>)
    reads server, server.games
  {
    || (end == LobbyCrash && AnyBot(recipients) && updates == [])
    || (end != SweepCrash && end != LobbyCrash && !AnyBot(recipients) && Presented(server, end, updates))
  }

  /** How the per-game part of a tick ended: at the first game in progress
      with a client that is not a player, with one update for each game
      before it, or after every game, with one update each. */
  ghost predicate Presented(server: Server, end: TickEnd, updates: seq<Message>)
    reads server, server.games
  {
    match end
    case GameCrash(index) =>
      && index < |server.games| && |updates| == index
      && server.games[index].state == InProgress && !AllPlayers(server.games[index].clients)
    case Completed => |updates| == |server.games|
    case _ => false
  }

  /** Some client of `cs` is a bot. */
  predicate AnyBot(cs: seq<Client>)
  {
    exists c :: c in cs && c.variant.Bot?
  }

  /** A broadcast of a message other than a game update stops early exactly
      when a bot is among its recipients. */
  lemma StopsAtBot(cs: seq<Client>, sentTo: nat, m: Message)
    requires sentTo <= |cs| && !m.GameUpdate?
    requires forall j :: 0 <= j < sentTo ==> !(cs[j].variant.Bot? && SnapshotTiles(m) == Throws)
    requires sentTo < |cs| ==> cs[sentTo].variant.Bot?
    ensures sentTo < |cs| <==> AnyBot(cs)
  {
    if sentTo < |cs| {
      assert cs[sentTo] in cs;
    } else {
      forall c | c in cs ensures !c.variant.Bot? {
        var j :| 0 <= j < |cs| && cs[j] == c;
      }
    }
  }

  /** The lobby broadcast of the tick: it goes to the clients in the lobby
      view, and it stops at the first bot among them. */
  method AnnounceLobby(server: Server) returns (lobby: Message, recipients: seq<Client>, crashed: bool)
    requires server.Valid()
    modifies server.clients`colonyBot, SocketsOf(server.clients)`sent
    ensures server.Valid()
    ensures lobby == LobbyUpdate(|server.clients|, Names(server.clients), Summaries(server.games))
    ensures recipients == old(server.LobbyClients())
    ensures forall c :: c in recipients ==> c in server.clients
    ensures crashed <==> AnyBot(recipients)
    ensures forall g: Game {:trigger g.state} {:trigger g.clients} {:trigger g.gameCore} {:trigger g.turn} {:trigger g.selected} {:trigger g.board} ::
              old(allocated(g)) ==>
                && g.state == old(g.state) && g.clients == old(g.clients) && g.gameCore == old(g.gameCore)
                && g.turn == old(g.turn) && g.selected == old(g.selected) && g.board == old(g.board)
    ensures forall x: Inputs {:trigger x.queued} {:trigger x.frame} :: old(allocated(x)) ==> x.queued == old(x.queued) && x.frame == old(x.frame)
  {
    var sentTo;
    lobby, recipients, sentTo := Announce(server);
    StopsAtBot(recipients, sentTo, lobby);
    crashed := sentTo < |recipients|;
  }

  /** The lobby broadcast and the per-game part of the tick. */
  method Broadcasts(server: Server, rules: Rules, ghost memo: Memo, ghost buffers: set<Inputs>)
    returns (end: TickEnd, lobby: Message, recipients: seq<Client>, updates: seq<Message>)
    requires server.Valid() && Stepped(server.games, 0, memo, rules) && buffers == BuffersOf(server.games)
    modifies server.clients`colonyBot, SocketsOf(server.clients)`sent
    modifies server.Cores()`turn, server.Cores()`selected, server.Cores()`board
    modifies buffers`queued, buffers`frame
    ensures Stepped(server.games, Reached(end, |server.games|), memo, rules)
    ensures forall g: Game {:trigger g.clients} :: old(allocated(g)) ==> g.clients == old(g.clients)
    ensures server.Valid()
    ensures lobby == LobbyUpdate(|server.clients|, Names(server.clients), Summaries(server.games))
    ensures forall c :: c in recipients ==> c in server.clients
    ensures Ended(server, end, recipients, updates) && |updates| <= |server.games|
    ensures forall j :: 0 <= j < |updates| ==> Updated(server.games[j], updates[j], rules)
    ensures forall x: Inputs {:trigger x.queued} {:trigger x.frame} :: old(allocated(x)) && x !in buffers ==>
              x.queued == old(x.queued) && x.frame == old(x.frame)
  {
    var crashed;
    label start:
    lobby, recipients, crashed := AnnounceLobby(server);
    SteppedKept@start(server, 0, memo, rules);
    BuffersKept@start(server.games);
    if crashed {
      end, updates := LobbyCrash, [];
      assert Reached(end, |server.games|) == 0;
    } else {
      end, updates := PresentAll(server, rules, recipients, memo, buffers);
    }
  }

  /** The updates of the first games, extended by the next game's. */
  lemma UpdatedSnoc(gs: seq<Game>, updates: seq<Message>, update: Message, rules: Rules)
    requires |updates| < |gs| && Updated(gs[|updates|], update, rules)
    requires forall j :: 0 <= j < |updates| ==> Updated(gs[j], updates[j], rules)
    ensures forall j :: 0 <= j < |updates| + 1 ==> Updated(gs[j], (updates + [update])[j], rules)
  {
    forall j | 0 <= j < |updates| + 1 ensures Updated(gs[j], (updates + [update])[j], rules) {
      if j < |updates| {
        assert (updates + [update])[j] == updates[j];
      }
    }
  }

  /** Every engine of a registered game is among the server's engines. */
  lemma CoresListed(server: Server)
    ensures forall j :: 0 <= j < |server.games| && server.games[j].gameCore != null ==>
              server.games[j].gameCore in server.Cores()
  {
    forall j | 0 <= j < |server.games| && server.games[j].gameCore != null
      ensures server.games[j].gameCore in server.Cores()
    {
      var g := server.games[j];
      assert g in server.games;
    }
  }

  /** What the tick for the game at index `i` may change lies within what
      the tick may change. */
  lemma GameFrames(server: Server, i: nat)
    requires server.Valid() && i < |server.games|
    ensures forall k :: 0 <= k < |server.games[i].clients| ==> server.games[i].clients[k] in server.clients
    ensures SocketsOf(server.games[i].clients) <= SocketsOf(server.clients)
    ensures InputsSetOf(server.games[i].clients) <= InputsSetOf(server.clients)
  {
    var g := server.games[i];
    assert Members(g, server.clients);
    SocketsSub(g.clients, server.clients);
    InputsSub(g.clients, server.clients);
  }

  /** The buffers of one game's players are among the games' buffers. */
  lemma GameBuffers(gs: seq<Game>, i: nat)
    requires i < |gs|
    ensures InputsSetOf(gs[i].clients) <= BuffersOf(gs)
  {
    forall x | x in InputsSetOf(gs[i].clients) ensures x in BuffersOf(gs) {
      var c :| c in gs[i].clients && c.variant.Player? && c.variant.inputs == x;
      assert gs[i] in gs;
    }
  }

  /** The buffers the games' players hold are buffers of registered players. */
  lemma BuffersListed(server: Server)
    requires server.Valid()
    ensures BuffersOf(server.games) <= InputsSetOf(server.clients)
  {
    forall x | x in BuffersOf(server.games) ensures x in InputsSetOf(server.clients) {
      var g, c :| g in server.games && c in g.clients && c.variant.Player? && c.variant.inputs == x;
      assert Members(g, server.clients);
      assert c in server.clients;
    }
  }

  /** The per-game part of the tick, after the lobby broadcast to
      `recipients`. */
  method PresentAll(server: Server, rules: Rules, ghost recipients: seq<Client>, ghost memo: Memo, ghost buffers: set<Inputs>)
    returns (end: TickEnd, updates: seq<Message>)
    requires server.Valid() && Stepped(server.games, 0, memo, rules) && buffers == BuffersOf(server.games)
    requires forall c :: c in recipients ==> c in server.clients
    modifies server.clients`colonyBot, SocketsOf(server.clients)`sent
    modifies server.Cores()`turn, server.Cores()`selected, server.Cores()`board
    modifies buffers`queued, buffers`frame
    ensures server.Valid()
    ensures Presented(server, end, updates) && |updates| <= |server.games|
    ensures forall j :: 0 <= j < |updates| ==> Updated(server.games[j], updates[j], rules)
    ensures Names(server.clients) == old(Names(server.clients)) && Summaries(server.games) == old(Summaries(server.games))
    ensures forall c :: c in recipients ==> c in server.clients
    ensures Stepped(server.games, Reached(end, |server.games|), memo, rules)
    ensures forall g: Game {:trigger g.clients} :: old(allocated(g)) ==> g.clients == old(g.clients)
    ensures forall x: Inputs {:trigger x.queued} {:trigger x.frame} :: old(allocated(x)) && x !in buffers ==>
              x.queued == old(x.queued) && x.frame == old(x.frame)
  {
    end, updates := PresentFramed(server, rules, memo, buffers);
    NamesKept(server.clients);
    SummariesKept(server.games);
  }

  /** `PresentEach`, with what it leaves alone: the games' states and
      client lists, and the buffers of players in no game. */
  method PresentFramed(server: Server, rules: Rules, ghost memo: Memo, ghost buffers: set<Inputs>)
    returns (end: TickEnd, updates: seq<Message>)
    requires server.Valid() && Stepped(server.games, 0, memo, rules) && buffers == BuffersOf(server.games)
    modifies server.clients`colonyBot, SocketsOf(server.clients)`sent
    modifies server.Cores()`turn, server.Cores()`selected, server.Cores()`board
    modifies buffers`queued, buffers`frame
    ensures server.Valid()
    ensures Presented(server, end, updates) && |updates| <= |server.games|
    ensures forall j :: 0 <= j < |updates| ==> Updated(server.games[j], updates[j], rules)
    ensures Stepped(server.games, Reached(end, |server.games|), memo, rules)
    ensures forall g: Game {:trigger g.clients} :: old(allocated(g)) ==> g.clients == old(g.clients)
    ensures forall g: Game {:trigger g.state} :: old(allocated(g)) ==> g.state == old(g.state)
    ensures forall x: Inputs {:trigger x.queued} :: old(allocated(x)) && x !in buffers ==> x.queued == old(x.queued)
    ensures forall x: Inputs {:trigger x.frame} :: old(allocated(x)) && x !in buffers ==> x.frame == old(x.frame)
  {
    ghost var reached;
    end, updates, reached := PresentEach(server, rules, memo, buffers);
  }

  /** The loop over the games of the per-game part of the tick. */
  method PresentEach(server: Server, rules: Rules, ghost memo: Memo, ghost buffers: set<Inputs>)
    returns (end: TickEnd, updates: seq<Message>, ghost reached: nat)
    requires server.Valid() && Stepped(server.games, 0, memo, rules) && buffers == BuffersOf(server.games)
    modifies server.clients`colonyBot, SocketsOf(server.clients)`sent
    modifies server.Cores()`turn, server.Cores()`selected, server.Cores()`board
    modifies buffers`queued, buffers`frame
    ensures reached == Reached(end, |server.games|) && Stepped(server.games, reached, memo, rules)
    ensures Presented(server, end, updates) && |updates| <= |server.games|
    ensures forall j :: 0 <= j < |updates| ==> Updated(server.games[j], updates[j], rules)
    ensures server.Valid()
  {
    end, updates := Completed, [];
    CoresListed(server);
    ghost var cores := server.Cores();
    var i := 0;
    while i < |server.games| && end == Completed
      invariant server.Valid() && server.Cores() == cores && BuffersOf(server.games) == buffers
      invariant |updates| <= i <= |server.games|
      invariant forall j :: 0 <= j < |updates| ==> Updated(server.games[j], updates[j], rules)
      invariant Stepped(server.games, i, memo, rules)
      invariant || (end == Completed && |updates| == i)
                || (0 < i && end == GameCrash(i - 1) && Presented(server, end, updates))
    {
      end, updates := PresentNext(server, i, updates, memo, rules, cores, buffers);
      i := i + 1;
    }
    reached := i;
  }

  /** `PresentAt` within the frame of the whole per-game part of the tick. */
  method PresentNext(server: Server, i: nat, sent: seq<Message>, ghost memo: Memo, rules: Rules,
                     ghost cores: set<Game?>, ghost buffers: set<Inputs>)
    returns (end: TickEnd, updates: seq<Message>)
    requires server.Valid() && server.Cores() == cores && BuffersOf(server.games) == buffers && |sent| == i < |server.games|
    requires forall j :: 0 <= j < |sent| ==> Updated(server.games[j], sent[j], rules)
    requires Stepped(server.games, i, memo, rules)
    modifies server.clients`colonyBot, SocketsOf(server.clients)`sent
    modifies cores`turn, cores`selected, cores`board
    modifies buffers`queued, buffers`frame
    ensures server.Valid() && server.Cores() == cores && BuffersOf(server.games) == buffers
    ensures end == Completed || end == GameCrash(i)
    ensures end.GameCrash? ==> updates == sent && Presented(server, end, updates)
    ensures end.Completed? ==> |updates| == i + 1
    ensures forall j :: 0 <= j < |updates| ==> Updated(server.games[j], updates[j], rules)
    ensures Stepped(server.games, i + 1, memo, rules)
  {
    GameFrames(server, i);
    GameBuffers(server.games, i);
    var update := PresentAt(server, i, sent, memo, rules);
    if update.None? {
      return GameCrash(i), sent;
    }
    UpdatedSnoc(server.games, sent, update.value, rules);
    end, updates := Completed, sent + [update.value];
  }

  /** The tick for the game at index `i`: its engine step and, unless that
      threw, its update sent to its clients. */
  method PresentAt(server: Server, i: nat, ghost updates: seq<Message>, ghost memo: Memo, rules: Rules)
    returns (update: Option<Message>)
    requires server.Valid() && |updates| == i < |server.games|
    requires forall j :: 0 <= j < |updates| ==> Updated(server.games[j], updates[j], rules)
    requires Stepped(server.games, i, memo, rules)
    modifies ({server.games[i].gameCore} - {null})`turn, ({server.games[i].gameCore} - {null})`selected
    modifies ({server.games[i].gameCore} - {null})`board
    modifies InputsSetOf(server.games[i].clients)`queued, InputsSetOf(server.games[i].clients)`frame
    modifies server.games[i].clients`colonyBot, SocketsOf(server.games[i].clients)`sent
    ensures server.Valid()
    ensures update.None? <==> server.games[i].state == InProgress && !AllPlayers(server.games[i].clients)
    ensures update.Some? ==> Updated(server.games[i], update.value, rules)
    ensures forall j :: 0 <= j < |updates| ==> Updated(server.games[j], updates[j], rules)
    ensures Stepped(server.games, i + 1, memo, rules)
  {
    var crashed := AdvanceAt(server, i, updates, memo, rules);
    update := None;
    if !crashed {
      label stepped:
      var sent := PublishAt(server, i, updates, rules);
      SteppedKept@stepped(server, i + 1, memo, rules);
      update := Some(sent);
    }
  }
}
