# jsSocket game sessions in Dafny

This project models the server core of jsSocket, a two-player board game
played over WebSockets. It covers three parts:

- **The registry.** `Server` in `src/server/socketServer.js` keeps a list of
  clients and a list of games. A client is in the LOBBY or IN_GAME. A game is
  WAITING_FOR_PLAYERS, IN_PROGRESS or ABANDONED.
  - The registry operations are `findClient`, `findGame`,
    `createPlayerClient`, `createBotClient`, `changeClientName`,
    `createAndJoinGame`, `joinGame`, `leaveGame`, `inputGame`,
    `getLobbyClients`, `getGameMessage` and the liveness sweep
    `cleanClosedClientsAndGames`.
- **The message handler and the timer tick.**
  - The handler looks up the client and the game a message names and
    switches on its type.
  - The tick runs three steps in order: the sweep, the lobby broadcast, and
    each game's update and broadcast.
- **The turn engine and the client variants.**
  - The engine is `Game.update` / `changeTurn` / `getStateDiff`. Two seats
    alternate, and a click selects a piece or makes a simple or jumping move.
  - The client variants are in `src/server/ClientInterface.js`: the base
    client, the player on a socket, and the bot.

Modules:

- **Board.** The board is a grid of tile ids. Its rules (`inBounds`,
  `areNear`, `applyMove`) are function values.
- **InputBuffer.** An `Inputs` class. Its queue is flushed into a tick state
  by an abstract rule.
- **Protocol.** The enums and the messages.
- **Net.** A socket: a ready state plus the list of messages sent on it.
- **Engine.** The engine as a pure state machine, with lemmas over many ticks.
- **Session.** The `Client` and `Game` classes.
- **Registry.** The `Server` class.
- **Rosters.** The invariant of the two lists, and the sweep's loop.
- **Router.** The handler and the tick.

Several things throw in JavaScript: the handler's exceptions that the
socket's `try`/`catch` swallows, and the exceptions that escape the timer's
callback. Each is a value here: `Outcome.Swallowed`, `TickEnd`, and the
`thrown` result of `Send`.

## Model

| member | source | states |
|---|---|---|
| Engine.Step | src/server/socketServer.js:42-60 | With no click the state is unchanged. A click on the seat's own tile selects that cell. A click on an empty cell near the selection at distance 1 applies a simple move (no origin); otherwise, at distance 2, a jump from the selection. Either move passes the turn to the other seat, clears the selection and keeps the turn in {0,1}. Any other click changes nothing. |
| Engine.Run | src/server/socketServer.js:38-60 | Running `update` over a sequence of clicks keeps the turn in {0,1}. |
| Engine.MoversAlternate | src/server/socketServer.js:46-60 | Over any run of ticks, the k-th accepted move is made by the seat k turns after the starting seat. The final turn has advanced once per accepted move, mod 2. |
| Engine.SeatsAlternateFromStart | src/server/socketServer.js:34-60 | From a new game, the owners passed to `applyMove` are tile ids 1, 2, 1, 2, ... |
| Engine.OnlySeatOnTurnActs | src/server/socketServer.js:42 | Two input lists that agree at index `turn` lead to the same new engine state: the other seats' inputs are never read. |
| InputBuffer.MouseInput | src/server/socketServer.js:62-69 | A cell is reported iff the mouse key is triggered and the cell is in bounds, and then it is the mouse cell. |
| InputBuffer.Inputs.constructor | src/server/ClientInterface.js:50 | A new buffer has an empty queue and the initial tick state. |
| InputBuffer.Inputs.AccumulateInput | src/server/socketServer.js:155-157 | The input is appended to the queue. |
| InputBuffer.Inputs.ApplyAccumulatedInputs | src/server/socketServer.js:40 | The queue is emptied into the tick state by the flush rule. |
| InputBuffer.ApplyAll | src/server/socketServer.js:39-40 | Every buffer of the list is flushed, each once. |
| InputBuffer.Frames | src/server/socketServer.js:42 | The tick states of the buffers, index by index. |
| Board.TileAt | src/server/socketServer.js:45 | A tile is read iff the cell is on the grid. |
| Net.Socket.constructor | src/server/ClientInterface.js:63 | A socket starts with its ready state and has sent nothing. |
| Session.Game.constructor | src/server/socketServer.js:25-36 | A new game is WAITING_FOR_PLAYERS, requires 2 clients, has none, and has no engine. Its engine state is turn 0 with no selection. |
| Session.Game.Update | src/server/socketServer.js:38-55 | Every buffer of `inputsList` is flushed. The new engine state is `Engine.Step` of the old one on the click of the seat whose turn it is. |
| Session.Game.ChangeTurn | src/server/socketServer.js:57-60 | From a non-negative turn, the turn becomes (turn + 1) mod 2 and the selection is cleared. |
| Session.Game.GetStateDiff | src/server/socketServer.js:71-79 | The diff carries the board's size, tiles, turn and selection. |
| Session.Client.constructor | src/server/ClientInterface.js:20-27 | A new client is in the LOBBY with no game and `tile == clientIndex + 1`. |
| Session.Client.Player | src/server/ClientInterface.js:47-52 | A new player also has a new empty input buffer and its socket. |
| Session.Client.Bot | src/server/ClientInterface.js:94-97 | A new bot is in the LOBBY with no game, tile `clientIndex + 1`, and no engine yet. |
| Session.Client.IsAlive | src/server/ClientInterface.js:29-101 | The base client is never alive. A player is alive iff its socket is not CLOSED, so CONNECTING and CLOSING count. A bot is alive iff its game has exactly 2 clients. |
| Session.Delivered | src/server/ClientInterface.js:62-67 | One send appends exactly the message if the socket is OPEN, and nothing otherwise. |
| Session.Client.SendToNetClient | src/server/ClientInterface.js:62-67 | The socket's sent list grows by `Delivered`. |
| Session.Client.Send | src/server/ClientInterface.js:33-106 | The base client does nothing. A player forwards the message to its socket. A bot rebuilds its engine from the grid the message's `data` carries, and throws exactly when the message has no `data`. |
| Session.Client.SendAt | src/server/ClientInterface.js:37 | One `send` of the loop changes only that client's engine and socket. |
| Session.Client.SendToClients | src/server/ClientInterface.js:36-38 | Clients are sent to in list order, stopping at the first send that throws. Each OPEN socket has received one copy per player on it among those reached. Each bot reached has rebuilt its engine, and nothing else changed. |
| Session.BroadcastStep | src/server/ClientInterface.js:37 | One more send that does not throw extends the record of a broadcast by one client. |
| Session.Client.Iter | src/server/ClientInterface.js:40-71 | A player flushes its input buffer; the others do nothing. |
| Session.Client.Play | src/server/ClientInterface.js:43-113 | Base client: no request. Player with no valid click: no request. Player clicking its own tile: a select request. Player clicking an empty cell: a move request from the game's selection with its own tile; any other click does nothing. Bot: a move request with its tile exactly when its engine decides a move. |
| Session.BindPlayerArgs | src/server/ClientInterface.js:48 | JavaScript binds positional arguments to `(clientIndex, netClient)` in order, and leaves the missing ones undefined. |
| Session.CreatePlayerClientLosesSocket | src/server/socketServer.js:109 | Passing only the socket binds it to `clientIndex` and leaves `netClient` undefined. |
| Session.PlayerArgsBound | src/server/ClientInterface.js:48 | Passing the index and then the socket binds each to its own parameter. |
| Session.SnapshotTilesAsWritten | src/server/ClientInterface.js:105 | Reading `data.tiles` never finds a grid, and throws exactly for messages without `data`. |
| Session.SnapshotTiles | src/server/socketServer.js:71-79 | Reading the grid under the name the diff uses finds the board of an in-progress update and is undefined for other game updates. |
| Session.BotSnapshotLost | src/server/ClientInterface.js:105 | For a game update carrying a diff, the as-written read is undefined while the corrected read finds the board. |
| Registry.GameMessage | src/server/socketServer.js:164-172 | The summary has the game's id, name and state, and `population == clients.length`. |
| Registry.Server.constructor | src/server/socketServer.js:95-98 | Both lists start empty, and the registry invariant holds. |
| Registry.Server.FindClient | src/server/socketServer.js:100-102 | Returns the first client with the id, or none when no client has it. |
| Registry.Server.FindGame | src/server/socketServer.js:104-106 | Returns the first game with the id, or none when no game has it. |
| Registry.Server.CreatePlayerClient | src/server/socketServer.js:108-112 | A new player on the socket is appended to the clients, in the LOBBY with no game. The invariant is kept. |
| Registry.Server.CreateBotClient | src/server/socketServer.js:114-119 | A new bot is appended to the clients, in the LOBBY with no game. |
| Registry.Server.ChangeClientName | src/server/socketServer.js:121-123 | The client takes the new name. |
| Registry.Server.CreateAndJoinGame | src/server/socketServer.js:125-132 | A new game is appended, and the client joins it after leaving (and so abandoning) any previous game. With `config.bot`, a new bot joins too: the game then has the two clients and is IN_PROGRESS with a new engine. A missing `config` throws after the creator has joined. |
| Registry.Server.AddBot | src/server/socketServer.js:129-130 | The bot is registered and seated second in a one-client game, which goes IN_PROGRESS with a new engine. |
| Registry.Server.JoinGame | src/server/socketServer.js:134-146 | If the client is already in the game, nothing changes. Otherwise the client leaves its previous game, which is ABANDONED and loses it. The client is then IN_GAME in the target and last in its list. The target goes IN_PROGRESS with a new engine exactly when its population becomes 2, and keeps its state otherwise. |
| Registry.Server.Enter | src/server/socketServer.js:139-145 | A client without a game is appended to the game, and the quorum rule applies. |
| Registry.Server.Append | src/server/socketServer.js:139-141 | The client is IN_GAME in the game and last in its list. |
| Registry.Server.Start | src/server/socketServer.js:142-145 | The game is IN_PROGRESS with a new engine in its initial state. |
| Registry.Server.RegisterGame | src/server/socketServer.js:126-127 | A new empty game, WAITING_FOR_PLAYERS, is appended to the games. |
| Registry.Server.OpenGame | src/server/socketServer.js:126-128 | A new game is appended and the client joins it: it is IN_GAME, the game holds only it and is WAITING_FOR_PLAYERS. The client's former game, if any, is ABANDONED and loses exactly the client. |
| Registry.Server.LeaveGame | src/server/socketServer.js:148-153 | The game becomes ABANDONED and its list loses exactly the client, keeping the others' order. The client is in the LOBBY without a game. |
| Registry.Server.InputGame | src/server/socketServer.js:155-157 | The input is queued in the player's buffer. |
| Registry.Server.LobbyClients | src/server/socketServer.js:159-162 | Exactly the clients in the LOBBY, or whose game is not IN_PROGRESS, in list order. |
| Registry.Server.CleanClosedClientsAndGames | src/server/socketServer.js:174-183 | The clients become the in-order subsequence that `isAlive()` accepted when visited. Each rejected client left its game. The games become those still populated, in order. The registry invariant is kept. |
| Registry.Server.Sweep | src/server/socketServer.js:175-180 | The client filter's visits as `Cleaned` states them. |
| Registry.Server.Compact | src/server/socketServer.js:175-182 | The lists are reassigned to the kept clients and the populated games, and the invariant is restored. |
| Rosters.Visit | src/server/socketServer.js:175-180 | Each verdict is what `isAlive()` returned at the client's visit. For a bot, that counts its game's clients after the earlier drops. Dropped clients are detached, the others are untouched, and each game lost exactly its dropped clients. |
| Rosters.VisitFrom | src/server/socketServer.js:175-180 | The loop over the clients, from a snapshot taken before the sweep. |
| Rosters.VisitOne | src/server/socketServer.js:176-179 | One visit extends the verdicts and the account of dropped clients by one. |
| Rosters.Detach | src/server/socketServer.js:148-153 | What `leaveGame` does: the game is ABANDONED and loses exactly the client, the client is in the LOBBY without a game, and every other game is as it was. |
| Rosters.Retire | src/server/socketServer.js:178-179 | A dead client leaves its game if it has one; the account of dropped clients grows by it. |
| Rosters.SweptDrop | src/server/socketServer.js:150-179 | A dead client's leaving removes it from the one list that still holds it. |
| Rosters.VerdictsSnoc | src/server/socketServer.js:176 | A further verdict leaves the earlier ones as they were. |
| Rosters.DroppedStep | src/server/socketServer.js:175-180 | A dropped client joins the dropped set; a kept one does not. |
| Rosters.SnapStarts | src/server/socketServer.js:174 | Before the first visit nothing is dropped and every list is as it was. |
| Rosters.SweptKeeps | src/server/socketServer.js:174-183 | The visits keep the registry invariant of the unfiltered lists. |
| Rosters.CompactRegistered | src/server/socketServer.js:175-182 | Filtering to the kept clients and populated games keeps the registry invariant. |
| Rosters.SeatedSurvive | src/server/socketServer.js:176-180 | A client that still has a game after the sweep was kept. |
| Rosters.PopulatedSeats | src/server/socketServer.js:182 | The game of every kept client survives the game filter. |
| Rosters.Populated | src/server/socketServer.js:182 | Exactly the games with at least one client, without repeats. |
| Rosters.LobbyFlags | src/server/socketServer.js:161 | Flag i is set iff client i is in the lobby view. |
| Rosters.RegisteredStays | src/server/socketServer.js:94-183 | The invariant depends only on the two lists, the clients' games and states, and the games' lists, states and engines. |
| Rosters.DetachKeeps | src/server/socketServer.js:148-153 | Leaving a game keeps the invariant. |
| Rosters.AttachKeeps | src/server/socketServer.js:139-141 | Joining a game keeps the invariant. |
| Rosters.StartKeeps | src/server/socketServer.js:142-145 | Starting a game with a new engine keeps the invariant. |
| Rosters.EnrolKeeps | src/server/socketServer.js:108-119 | Appending a new client in the lobby keeps the invariant. |
| Rosters.OpenKeeps | src/server/socketServer.js:127 | Appending a new empty game keeps the invariant. |
| Rosters.TurnKept | src/server/socketServer.js:57-60 | An engine's turn step keeps the invariant. |
| Router.KindOf | src/server/socketServer.js:194-222 | Each of the six message type strings selects its own case, and every other string the default. |
| Router.Dispatch | src/server/socketServer.js:190-224 | The handler's effect for each message type, as the handlers below state it. `create-client` registers a new player last and leaves every other client, every game and every buffer as it was. An unknown type changes nothing. A message naming a client or game that is not registered changes nothing, except `create-client`, which needs neither. |
| Router.HandleCreateClient | src/server/socketServer.js:195-198 | A new player is registered last and told its id and name if its socket is OPEN. |
| Router.HandleRename | src/server/socketServer.js:199-202 | A found client takes the new name and keeps its game and state. Every other client, every game and every input buffer is as it was. A missing client changes nothing. |
| Router.HandleCreateGame | src/server/socketServer.js:203-208 | For a found client, `Router.CreateGameFor`'s effect. A missing client changes nothing. |
| Router.CreateGameFor | src/server/socketServer.js:203-208 | A new game with the drawn id and name is registered last and the creator is IN_GAME in it. With `config.bot` a new bot is registered last and seated second, and the game is IN_PROGRESS with a new engine in its initial state. Otherwise the game holds only the creator, is WAITING_FOR_PLAYERS and has no engine. The creator's former game, if any, is ABANDONED and loses exactly the creator. Every other client and game is as it was. The creator is told the game's id and name iff `config` is present; a missing `config` throws after the join. |
| Router.JoinNewGame | src/server/socketServer.js:125-132 | `createAndJoinGame` from the handler: the registry effect stated in `Router.CreateGameFor`, and the call throws iff `config` is missing. |
| Router.Acknowledge | src/server/socketServer.js:197-206 | The acknowledgement is delivered by `sendToNetClient`, and the registry is unchanged. |
| Router.HandleJoin | src/server/socketServer.js:209-212 | With client and game both found, `Router.JoinFound`'s effect. Otherwise nothing changes. |
| Router.JoinFound | src/server/socketServer.js:134-146 | If the client is already in the game, nothing changes. Otherwise its former game, if any, is ABANDONED and loses exactly the client. The client is appended to the game and is IN_GAME. The game goes IN_PROGRESS with a new engine in its initial state iff it now has 2 clients, and otherwise keeps its state and engine. Every other client and game is as it was. |
| Router.HandleLeave | src/server/socketServer.js:213-216 | A found client with a game is back in the LOBBY without a game. That game is ABANDONED and its list loses exactly the client, the others keeping their order. Every other client, game and buffer is as it was. A found client without a game makes the handler throw, changing nothing; a missing client changes nothing. |
| Router.HandleInput | src/server/socketServer.js:217-220 | A found player's input is appended to its buffer's queue. Every other buffer, every client and every game is as it was. A found bot or base client makes the handler throw, changing nothing; a missing client changes nothing. |
| Router.Home | src/server/socketServer.js:149 | The game of the client found, if any. |
| Router.Names | src/server/socketServer.js:229-242 | The names of the clients, index by index. |
| Router.NamesKept | src/server/socketServer.js:229-242 | The names depend only on the clients' names. |
| Router.Summaries | src/server/socketServer.js:234 | The summaries of the games, index by index. |
| Router.SummariesKept | src/server/socketServer.js:234 | The summaries depend only on the games' states and lists. |
| Router.PlayerInputs | src/server/socketServer.js:241 | The input buffers of a list of players, index by index. |
| Router.FirstUnbuffered | src/server/socketServer.js:241 | The first client without an input buffer, where `update`'s flush throws. Every client before it is a player. |
| Router.PlayerInputsDistinct | src/server/socketServer.js:241 | Two players of one game never share an input buffer. |
| Router.GameData | src/server/socketServer.js:246 | An update has `data` iff the game is IN_PROGRESS, and then it is the engine's state diff. |
| Router.Announce | src/server/socketServer.js:229-235 | The lobby message has the population, the names and the summaries of the swept lists, and goes to `getLobbyClients()` as `sendToClients` sends. No game's state, list or engine and no input buffer changes. |
| Router.AnnounceLobby | src/server/socketServer.js:229-235 | The lobby broadcast throws iff a bot is among its recipients. No game's state, list or engine and no input buffer changes. |
| Router.StopsAtBot | src/server/ClientInterface.js:36-105 | A broadcast of a message that is not a game update stops early exactly when a bot is among its recipients. |
| Router.Send | src/server/socketServer.js:230-243 | `sendToClients` to registered clients keeps the registry invariant, and changes no game and no input buffer. |
| Router.Advance | src/server/socketServer.js:239-241 | A game IN_PROGRESS with only players has every buffer flushed and its engine takes `Engine.Step` on the click of the seat on turn. With a client that is not a player the step throws, after flushing the buffers before that client; the players after it keep their buffers and the engine does not move. A game not IN_PROGRESS keeps its engine and its buffers. In each case the game is `Advanced` against the engines and buffers the tick found. |
| Router.FlushUntilUnbuffered | src/server/socketServer.js:39-40 | The buffers before the first non-player are flushed, once each, and the players after it keep their buffers. |
| Router.PlayersApart | src/server/socketServer.js:241 | Two players at different places in one game's list have different input buffers. |
| Router.StepEngine | src/server/socketServer.js:241 | With only players, every buffer is flushed and the engine takes one `Engine.Step`. |
| Router.RunEngine | src/server/socketServer.js:241 | The call of `update` with the players' buffers: every buffer is flushed, the engine takes one `Engine.Step` on the click of the seat on turn, and the turn stays in {0,1}. |
| Router.Publish | src/server/socketServer.js:242-248 | The game update has the client names, the state diff iff IN_PROGRESS, and the game summary. It reaches every client of the game. |
| Router.PublishAt | src/server/socketServer.js:242-248 | Publishing the game at index i keeps the updates already sent to the games before it. |
| Router.AdvanceAt | src/server/socketServer.js:239-241 | Stepping the game at index i throws iff it is IN_PROGRESS with a client that is not a player. Afterwards games 0..i have had their `update` against what the tick found, the games after i are as the tick found them (`Stepped` grows from i to i + 1), and the updates already sent to the games before i are kept. |
| Router.PresentAt | src/server/socketServer.js:238-248 | One game's part of the tick: an update iff its step did not throw, and then it is that game's `Updated` message. The earlier updates are kept, and `Stepped` grows by this game. |
| Router.PresentEach | src/server/socketServer.js:237-249 | The games are visited in list order. The part ends at the first in-progress game with a non-player client, or after every game, with one update per game visited. Every game up to and including the one where it ended has had its `update` against what the tick found: buffers flushed and `Engine.Step` taken, or, at the game that threw, only the buffers before the non-player flushed. Every later game is as the tick found it. |
| Router.PresentAll | src/server/socketServer.js:237-249 | The per-game part as `Router.PresentEach` states it, including its account of each game's engine and buffers. It leaves the names and summaries of the lobby message and every game's client list as they were, and every buffer that belongs to no game's player is unchanged. |
| Router.PresentFramed | src/server/socketServer.js:237-249 | The per-game part as `Router.PresentEach` states it. No game's state or client list changes, and no buffer outside the games' players changes. |
| Router.Broadcasts | src/server/socketServer.js:229-249 | The lobby broadcast comes before the per-game part, which runs only if the lobby broadcast did not throw. If it threw, every game is as the tick found it. Otherwise the games are as `Router.PresentEach` states them. In both cases every buffer that belongs to no game's player is unchanged. |
| Router.Tick | src/server/socketServer.js:227-249 | The sweep throws, changing nothing, iff some bot has no game. Otherwise each client's verdict is the one `isAlive()` gave at its visit, and the lists become the clients with a true verdict and the games still populated. The lobby message describes the swept lists. The tick ends at the lobby broadcast iff a bot is a lobby recipient, else at the first in-progress game with a non-player, else after every game. Each game reached gets its update. Against the engines and buffers at the tick's start, every game up to where the tick ended has had its `update` (flushed and `Engine.Step` taken, or only partly flushed at the game that threw), and every later game is as it was. A player seated in no game after the sweep keeps its buffer. When the sweep throws, no socket and no client or game changes. |
| Router.SweptTick | src/server/socketServer.js:227-249 | The tick once the sweep did not throw: the verdicts, the swept lists, the broadcasts, each game's engine and buffers, and the untouched buffers of the players in no game, as `Router.Tick` states them. `seated` is the set of the games' players' buffers after the tick. |
| Router.SweepFound | src/server/socketServer.js:227 | The sweep as `Router.SweepForTick` states it. Afterwards every game is idle against the record of the tick's start. The remaining sockets, engines and buffers were all there before. No input buffer changes. |
| Router.SweepForTick | src/server/socketServer.js:227 | The sweep as the rest of the tick sees it: the verdicts `isAlive()` gave at each visit, and the lists filtered by them and by population. No input buffer changes. |
| Router.SweptWithin | src/server/socketServer.js:175-182 | Filtering leaves no client, socket, buffer or engine that was not there before. |
| Router.AfterSweep | src/server/socketServer.js:229-249 | The broadcasts after the sweep leave the swept lists as they were. Each game's engine and buffers are as `Router.Broadcasts` states them. Every buffer that belongs to no player of a swept game is unchanged. |
| Router.UpdatesKept | src/server/socketServer.js:237-249 | The updates of earlier games stay theirs when another game's engine steps. |
| Router.UpdatedSnoc | src/server/socketServer.js:237-249 | The next game's update extends the record. |
| Router.StepAt | src/server/socketServer.js:239-241 | The step of the game at index i throws iff it is IN_PROGRESS with a client that is not a player. It moves `Stepped` from i to i + 1: the other games' engines and buffers are untouched. |
| Router.PresentNext | src/server/socketServer.js:237-249 | One pass of the per-game loop. It ends the part at game i iff that game's step throws, and otherwise appends the game's update. `Stepped` grows by one game. |
| Router.Capture | src/server/socketServer.js:227 | The engines and buffers of the registry at the tick's start, recorded so that every one is as recorded. |
| Router.IdleFromFound | src/server/socketServer.js:237 | Before any game's update, every game is idle against what was recorded. |
| Router.BuffersApart | src/server/socketServer.js:239-241 | A player of another game never shares an input buffer with the game at index i, so its update leaves their buffers alone. |
| Router.ProgressKept | src/server/socketServer.js:237-249 | A game's progress depends only on its state, clients, engine and players' buffers. |
| Router.IdleKept | src/server/socketServer.js:237-249 | Whether a game is idle depends only on its clients, engine and players' buffers. |
| Router.BuffersKept | src/server/socketServer.js:237-241 | The set of the games' players' buffers depends only on the games' client lists. |
| Router.GameBuffers | src/server/socketServer.js:237-241 | One game's players' buffers are among the games' players' buffers. |
| Router.BuffersListed | src/server/socketServer.js:237-241 | Every buffer of a game's player belongs to a registered client. |
| Router.SteppedKept | src/server/socketServer.js:229-249 | The account of the games' progress survives anything that changes no game and no buffer, such as the lobby broadcast or a game's publish. |
| Router.OthersProgress | src/server/socketServer.js:237-241 | When game i advances and the other games' engines and buffers are untouched, the first i + 1 games have advanced and the rest are idle. |
| Router.AdvancedFrom | src/server/socketServer.js:239-241 | What `update` did to an idle game, flushed and stepped, or partly flushed at a throw, or untouched when not in progress, is `Advanced`. |
| Router.FoundKept | src/server/socketServer.js:175-182 | The record of the engines and buffers stays true after a sweep that drops clients and games but touches no engine and no buffer. |
| Router.StillPopulated | src/server/socketServer.js:182 | The swept game list stays the populated games while no game's client list changes. |

## Left out

- **Network and serialisation.**
  - The HTTP and WebSocket server setup and the port.
  - `JSON.parse` / `JSON.stringify`: messages are datatypes, and a socket
    records the messages sent on it rather than strings.
- **The `setInterval` timer.** One call of `Router.Tick` is one tick.
- **Randomness.** `Rand.randId` / `randName` are not modelled: ids and names
  are parameters (`Naming`).
- **Collaborators.** `Board`, `Inputs` and `ColonyBot` are foreign modules.
  - Board: `inBounds`, `areNear` and `applyMove` are function values.
  - Inputs: the flush of an input buffer is an abstract rule, and its tick
    state is a record of a trigger flag and an already-discretised cell.
  - ColonyBot: the bot's decision is a function parameter.
- **Floating point.** The mouse-to-cell conversion with `Math.floor` is not
  modelled.
- **Logging and unused constants.** `console.warn` and `console.log` are not
  modelled, and neither are the unused `KEY_ENUM` keys.
- **The game-level `select` and `applyMove` that `play` calls.** The server's
  `Game` class does not define them. `Session.Client.Play` therefore returns
  the call it would make as a `Request` value, against a view of the game's
  tiles and selection.
- **Session.Client.Play: the tile read for a player's click.** The model reads
  it with `TileAt`, so an off-grid cell matches neither branch. The source
  reads `undefined` there, or throws when the column does not exist. The click is in bounds by `getMouseInput`, so this only
  matters if `inBounds` and the grid disagree.
- **Registry.Server.CreateBotClient: the missing index.** `createBotClient`
  passes no index, which gives tile `NaN`. The model takes `clientIndex` as a
  parameter.
- **Registry.Server.CreatePlayerClient: the argument mix-up.** It binds the
  index and the socket to their own parameters. This is the corrected
  behaviour of the first finding.
- **Registry.Server.JoinGame: registration of its arguments.** It requires
  the client and the game to be registered, which is what the handler
  guarantees by looking them up.
- **Registry.Server.LeaveGame: the client's game.** It requires the client to
  have a game. The source would throw on `null`, and `Router.HandleLeave`
  models that throw.
- **Session.Game.Update: distinct buffers.** It requires the input buffers to
  be distinct objects. `Router.PlayerInputsDistinct` proves this for every
  registered game.
- **Router.Tick: a sweep that throws part-way.** When a bot without a game
  makes `isAlive` throw, the model states the lists as unchanged. The JS
  filter would have left the games of the clients visited before the bot
  already changed, and the lists unassigned.
- **Router.Tick: the lobby recipients.** `Router.Tick` states the recipients
  only as members of the swept client list. `Router.AnnounceLobby` states
  that they are exactly `getLobbyClients()`.
- **Router.Tick: what each game's clients received.** `Router.Tick` states
  each game update through `Router.Updated`. `Router.Publish` states what its
  clients' sockets and engines received.
- **Session.Client.Send: the bot's grid.** A bot builds its engine from the
  grid stored under `board`, the name `getStateDiff` uses. This is the
  corrected read of the second finding. The source reads `data.tiles`, which
  is undefined for every game update, so its bots always get `undefined`.
  `Session.SnapshotTilesAsWritten` models that read.
- **Session.Client.SendToClients: the bot's grid.** Each bot reached rebuilds
  its engine from the corrected read, as in `Session.Client.Send`.
- **Router.Publish: the bot's grid.** A bot among the game's clients rebuilds
  its engine from the corrected read, as in `Session.Client.Send`.
- **Engine.Step: an off-grid column.** A click that `inBounds` accepts on a
  cell off the grid changes nothing here, because `TileAt` finds no tile.
  The source indexes `tiles[x][y]`: that reads `undefined` for an off-grid
  row, and throws when the column does not exist. The throw would escape
  `update` and the tick.
- **Session.Game.Update: an off-grid column.** It takes `Engine.Step`, so an
  off-grid click changes nothing where the source may throw.
- **Router.Tick: what the sweep did to each client.** It states the verdict
  `isAlive()` gave at each visit and the filtered lists. It does not carry
  the rest of `Rosters.Cleaned` (dropped clients detached, the others
  untouched, each game's list without the dropped clients).
  `Registry.Server.CleanClosedClientsAndGames` states all of that.
- **Router.SweptTick: what the sweep did to each client.** As for
  `Router.Tick`.
- **Router.SweepForTick: what the sweep did to each client.** As for
  `Router.Tick`.
- **Router.SweepFound: what the sweep did to each client.** As for
  `Router.Tick`.
- **Session.Game.ChangeTurn: a negative turn.** It requires a non-negative
  turn. The source's `++turn % 2` truncates toward zero, so from a negative
  turn it could reach -1. No engine state that `Engine.Valid` allows has a
  negative turn.
- **Session.Client.Play: a bot's engine.** It requires a bot to have built
  its engine, which happens at its first `send`. Before that the source
  throws on the missing engine.
- **Session.Client.IsAlive: a bot without a game.** It requires a bot to
  have a game. The sweep's visit of such a bot throws, and `Router.Tick`
  models that as `SweepCrash`.

## Findings

| source | as written | input that shows it | evidently intended | confidence | as-written member | corrected member |
|---|---|---|---|---|---|---|
| src/server/socketServer.js:109 | `new PlayerClientInterface(netClient)` passes the socket into the first parameter, `clientIndex` (ClientInterface.js:48). `netClient` stays undefined, so the player's `isAlive` and `send` read a property of `undefined`. | any `create-client` message | the player keeps its socket in `netClient` and receives an index in `clientIndex` | not executed | Session.CreatePlayerClientLosesSocket | Session.PlayerArgsBound, Registry.Server.CreatePlayerClient |
| src/server/ClientInterface.js:105 | The bot builds its engine from `message.data.tiles`, but `getStateDiff` names the grid `board` (socketServer.js:75). A bot's engine never sees the tiles. | a game update whose `data` is the diff of a game in progress | the bot reads the grid the diff carries | not executed | Session.SnapshotTilesAsWritten, Session.BotSnapshotLost | Session.SnapshotTiles |
