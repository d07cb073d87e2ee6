/**
 * The two kinds of object the server keeps: clients (ClientInterface.js) and
 * games (the `Game` class of socketServer.js). A client points at its game
 * and a game lists its clients, so both classes live in one module.
 *
 * ClientInterface and its subclasses PlayerClientInterface and
 * BotClientInterface become one class `Client` whose `variant` says which
 * of the three it is and carries the player's socket and input buffer.
 */
module Session {
  import opened Wrappers
  import opened Seqs
  import opened Board
  import opened InputBuffer
  import opened Protocol
  import opened Net
  import Engine

  datatype Variant = Base | Player(netClient: Socket, inputs: Inputs) | Bot

  /** The bot's decision engine (`new ColonyBot(tiles, tile)`); ColonyBot.js is
      not part of this model, so the engine is the pair it was built from,
      with `None` for `undefined` tiles. */
  datatype BotEngine = ColonyBot(tiles: Option<Grid>, tile: int)

  /** A decision of the bot's engine: `{move: {from, to}}`. */
  datatype BotMove = BotMove(from: Origin, to: Cell)

  /** What `play` reads from its game: the board's tiles and the selection. */
  datatype GameView = GameView(tiles: Grid, selected: Selection)

  /** The call `play` makes on its game: none, `game.select(cell)`, or
      `game.applyMove(origin, dest, owner)`. */
  datatype Request = NoRequest | SelectRequest(cell: Cell) | MoveRequest(origin: Origin, dest: Cell, owner: int)

  /** Reading `message.data.<field>`: it throws when `data` is undefined, and
      is `undefined` when `data` is `false` or has no such field. */
  datatype Lookup = Throws | Undefined | Found(tiles: Grid)

  /** `message.data.tiles`, which BotClientInterface.send reads. No message
      the server builds carries a `tiles` field in its data: a state diff
      names its grid `board`. */
  function SnapshotTilesAsWritten(m: Message): (r: Lookup)
    ensures !r.Found?
    ensures r == Throws <==> !m.GameUpdate?
  {
    if m.GameUpdate? then Undefined else Throws
  }

  /** `message.data.board`: the grid a game update carries when its game is
      in progress. */
  function SnapshotTiles(m: Message): (r: Lookup)
    ensures r == Throws <==> !m.GameUpdate?
    ensures m.GameUpdate? && m.data.Some? ==> r == Found(m.data.value.board)
    ensures m.GameUpdate? && m.data.None? ==> r == Undefined
  {
    if !m.GameUpdate? then Throws
    else if m.data.Some? then Found(m.data.value.board)
    else Undefined
  }

  /** A game update of a game in progress carries its board, which the field
      the bot reads never delivers. */
  lemma BotSnapshotLost(names: seq<string>, d: StateDiff, summary: GameSummary)
    ensures SnapshotTilesAsWritten(GameUpdate(names, Some(d), summary)) == Undefined
    ensures SnapshotTiles(GameUpdate(names, Some(d), summary)) == Found(d.board)
  {
  }

  /** What the bot's engine is built from when a lookup did not throw. */
  function EngineTiles(l: Lookup): Option<Grid>
  {
    if l.Found? then Some(l.tiles) else None
  }

  /** An argument passed to a client constructor. */
  datatype Arg = Missing | IndexArg(index: int) | SocketArg(socket: Socket)

  /** The parameters `(clientIndex, netClient)` of
      `new PlayerClientInterface(...)`, bound by position; a missing
      argument is `undefined`. */
  function BindPlayerArgs(args: seq<Arg>): (r: (Arg, Arg))
    ensures |args| == 0 ==> r == (Missing, Missing)
    ensures |args| == 1 ==> r == (args[0], Missing)
    ensures |args| >= 2 ==> r == (args[0], args[1])
  {
    (if |args| > 0 then args[0] else Missing, if |args| > 1 then args[1] else Missing)
  }

  /** `createPlayerClient(netClient)` calls the constructor with the socket
      as its only argument: the socket lands in `clientIndex` and
      `netClient` stays undefined, so `isAlive` and `send` later read
      `readyState` of undefined. */
  lemma CreatePlayerClientLosesSocket(s: Socket)
    ensures BindPlayerArgs([SocketArg(s)]) == (SocketArg(s), Missing)
  {
  }

  /** The call with a seat index and the socket binds both as named. */
  lemma PlayerArgsBound(index: int, s: Socket)
    ensures BindPlayerArgs([IndexArg(index), SocketArg(s)]) == (IndexArg(index), SocketArg(s))
  {
  }

  /** What one `netClient.send` appends: the message if the socket is OPEN, nothing otherwise. */
  function Delivered(state: ReadyState, m: Message): (r: seq<Message>)
    ensures |r| <= 1
    ensures r != [] <==> state == Open
    ensures r != [] ==> r[0] == m
  {
    if state == Open then [m] else []
  }

  /** The sockets of the players among `cs`. */
  function SocketsOf(cs: seq<Client>): set<Socket>
  {
    set c | c in cs && c.variant.Player? :: c.variant.netClient
  }

  /** The input buffers of the players among `cs`. */
  function InputsSetOf(cs: seq<Client>): set<Inputs>
  {
    set c | c in cs && c.variant.Player? :: c.variant.inputs
  }

  /** How many players in `cs` write to socket `s`. */
  function Count(cs: seq<Client>, s: Socket): nat
  {
    if cs == [] then 0
    else Count(cs[..|cs| - 1], s)
         + (if cs[|cs| - 1].variant.Player? && cs[|cs| - 1].variant.netClient == s then 1 else 0)
  }

  /** Sending to one more client adds that client's copy, if it is a player on `s`. */
  lemma CopiesCountStep(cs: seq<Client>, k: nat, s: Socket, m: Message)
    requires k < |cs|
    ensures Copies(m, Count(cs[..k + 1], s))
            == Copies(m, Count(cs[..k], s))
               + (if cs[k].variant.Player? && cs[k].variant.netClient == s then [m] else [])
  {
    assert cs[..k + 1][..k] == cs[..k];
  }

  /** The engine a bot holds after `send(m)` did not throw. */
  function RebuiltEngine(c: Client, m: Message): Option<BotEngine>
  {
    Some(ColonyBot(EngineTiles(SnapshotTiles(m)), c.tile))
  }

  /** The outboxes of the players' sockets, and the engines of the clients. */
  function Outboxes(cs: seq<Client>): map<Socket, seq<Message>>
    reads SocketsOf(cs)
  {
    map s | s in SocketsOf(cs) :: s.sent
  }

  function BotEngines(cs: seq<Client>): map<Client, Option<BotEngine>>
    reads cs
  {
    map c | c in cs :: c.colonyBot
  }

  /** After `m` was sent to the first `k` clients of `cs`, starting from
      `outboxes` and `engines`: each socket has received one copy per
      player on it among them, if it is OPEN, and each bot among them has
      rebuilt its engine; nothing else has changed. */
  ghost predicate Broadcast(cs: seq<Client>, k: nat, m: Message,
                            outboxes: map<Socket, seq<Message>>, engines: map<Client, Option<BotEngine>>)
    requires k <= |cs|
    reads cs, SocketsOf(cs)
  {
    && (forall s :: s in SocketsOf(cs) ==>
          s in outboxes && s.sent == outboxes[s] + Copies(m, if s.readyState == Open then Count(cs[..k], s) else 0))
    && (forall c :: c in cs ==>
          c in engines && c.colonyBot == if c in cs[..k] && c.variant.Bot? then RebuiltEngine(c, m) else engines[c])
  }

  /** One more send that did not throw extends the broadcast by one client. */
  twostate lemma BroadcastStep(new cs: seq<Client>, new k: nat, new m: Message,
                               new outboxes: map<Socket, seq<Message>>, new engines: map<Client, Option<BotEngine>>)
    requires old(allocated(cs)) && old(allocated(m)) && old(allocated(outboxes)) && old(allocated(engines))
    requires k < |cs| && old(Broadcast(cs, k, m, outboxes, engines))
    requires cs[k].variant.Player? ==>
               cs[k].variant.netClient.sent
               == old(cs[k].variant.netClient.sent) + Delivered(cs[k].variant.netClient.readyState, m)
    requires cs[k].colonyBot == if cs[k].variant.Bot? then RebuiltEngine(cs[k], m) else old(cs[k].colonyBot)
    requires forall s :: s in SocketsOf(cs) ==>
               s.readyState == old(s.readyState) && (s !in cs[k].Sockets() ==> s.sent == old(s.sent))
    requires forall c :: c in cs && c != cs[k] ==> c.colonyBot == old(c.colonyBot)
    ensures Broadcast(cs, k + 1, m, outboxes, engines)
  {
    forall s | s in SocketsOf(cs)
      ensures s.sent == outboxes[s] + Copies(m, if s.readyState == Open then Count(cs[..k + 1], s) else 0)
    {
      CopiesCountStep(cs, k, s, m);
    }
    assert cs[..k + 1] == cs[..k] + [cs[k]];
  }

  class Client {
    const id: Id
    var name: string
    var state: ClientState
    var game: Game?
    const clientIndex: int
    /** The tile id the client owns on the board. */
    const tile: int
    const variant: Variant
    /** BotClientInterface's `colonyBot`, rebuilt by every `send`. */
    var colonyBot: Option<BotEngine>

    /** `new ClientInterface(clientIndex)`. */
    constructor (id: Id, name: string, clientIndex: int)
      ensures this.id == id && this.name == name && this.clientIndex == clientIndex
      ensures state == Lobby && game == null && tile == clientIndex + 1
      ensures variant == Base && colonyBot == None
    {
      this.id := id;
      this.name := name;
      state := Lobby;
      game := null;
      this.clientIndex := clientIndex;
      tile := clientIndex + 1;
      variant := Base;
      colonyBot := None;
    }

    /** `new PlayerClientInterface(clientIndex, netClient)`. */
    constructor Player(id: Id, name: string, clientIndex: int, netClient: Socket, inputRules: InputRules)
      ensures this.id == id && this.name == name && this.clientIndex == clientIndex
      ensures state == Lobby && game == null && tile == clientIndex + 1
      ensures variant.Player? && variant.netClient == netClient && fresh(variant.inputs)
      ensures variant.inputs.rules == inputRules && variant.inputs.queued == []
      ensures variant.inputs.frame == inputRules.initial
      ensures colonyBot == None
    {
      var inputs := new Inputs(inputRules);
      this.id := id;
      this.name := name;
      state := Lobby;
      game := null;
      this.clientIndex := clientIndex;
      tile := clientIndex + 1;
      variant := Variant.Player(netClient, inputs);
      colonyBot := None;
    }

    /** `new BotClientInterface(clientIndex)`. */
    constructor Bot(id: Id, name: string, clientIndex: int)
      ensures this.id == id && this.name == name && this.clientIndex == clientIndex
      ensures state == Lobby && game == null && tile == clientIndex + 1
      ensures variant == Variant.Bot && colonyBot == None
    {
      this.id := id;
      this.name := name;
      state := Lobby;
      game := null;
      this.clientIndex := clientIndex;
      tile := clientIndex + 1;
      variant := Variant.Bot;
      colonyBot := None;
    }

    function Sockets(): set<Socket>
    {
      if variant.Player? then {variant.netClient} else {}
    }

    function InputsSet(): set<Inputs>
    {
      if variant.Player? then {variant.inputs} else {}
    }

    /** `isAlive()`: never for the base class; a player while its socket is
      not CLOSED; a bot while its game has exactly two clients. */
    function IsAlive(): (alive: bool)
      requires variant.Bot? ==> game != null
      reads this`game, ({game} - {null})`clients, Sockets()`readyState
      ensures variant.Base? ==> !alive
      ensures variant.Player? ==>
                (alive <==> variant.netClient.readyState in {Connecting, Open, Closing})
      ensures variant.Bot? ==> (alive <==> |game.clients| == NUM_CLIENTS_PER_GAME)
    {
      match variant
      case Base => false
      case Player(netClient, _) => netClient.readyState != Closed
      case Bot => |game.clients| == 2
    }

    /** `PlayerClientInterface.sendToNetClient`: dropped unless the socket is OPEN. */
    static method SendToNetClient(netClient: Socket, message: Message)
      modifies netClient`sent
      ensures netClient.sent == old(netClient.sent) + Delivered(netClient.readyState, message)
    {
      if netClient.readyState != Open {
        return;
      }
      netClient.sent := netClient.sent + [message];
    }

    /** `send(message)`: nothing for the base class; the player forwards to
      its socket; the bot rebuilds its engine from the message's board,
      which throws when the message has no `data`. */
    method Send(message: Message) returns (thrown: bool)
      modifies this`colonyBot, Sockets()`sent
      ensures thrown <==> variant.Bot? && SnapshotTiles(message) == Throws
      ensures variant.Player? ==>
                variant.netClient.sent
                == old(variant.netClient.sent) + Delivered(variant.netClient.readyState, message)
      ensures colonyBot == if variant.Bot? && !thrown then RebuiltEngine(this, message) else old(colonyBot)
    {
      thrown := false;
      match variant
      case Base =>
      case Player(netClient, _) =>
        SendToNetClient(netClient, message);
      case Bot =>
        var tiles := SnapshotTiles(message);
        if tiles == Throws {
          thrown := true;
          return;
        }
        colonyBot := Some(ColonyBot(EngineTiles(tiles), tile));
    }

    /** `ClientInterface.sendToClients`: `send` to each client in list order.
      A send that throws ends the loop; `sentTo` is how many were sent. */
    static method SendToClients(clients: seq<Client>, message: Message) returns (sentTo: nat)
      modifies clients`colonyBot, SocketsOf(clients)`sent
      ensures sentTo <= |clients|
      ensures forall j :: 0 <= j < sentTo ==> !(clients[j].variant.Bot? && SnapshotTiles(message) == Throws)
      ensures sentTo < |clients| ==> clients[sentTo].variant.Bot? && SnapshotTiles(message) == Throws
      ensures Broadcast(clients, sentTo, message, old(Outboxes(clients)), old(BotEngines(clients)))
    {
      ghost var outboxes, engines := Outboxes(clients), BotEngines(clients);
      sentTo := 0;
      var thrown := false;
      while sentTo < |clients| && !thrown
        invariant sentTo <= |clients|
        invariant forall j :: 0 <= j < sentTo ==> !(clients[j].variant.Bot? && SnapshotTiles(message) == Throws)
        invariant thrown ==> sentTo < |clients| && clients[sentTo].variant.Bot? && SnapshotTiles(message) == Throws
        invariant Broadcast(clients, sentTo, message, outboxes, engines)
        decreases |clients| - sentTo, if thrown then 0 else 1
      {
        label before:
        thrown := Client.SendAt(clients, sentTo, message);
        if !thrown {
          BroadcastStep@before(clients, sentTo, message, outboxes, engines);
          sentTo := sentTo + 1;
        }
      }
    }

    /** `send` to the `k`-th client of `cs`, with what that leaves as it
        was among the other clients and sockets of `cs`. */
    static method SendAt(cs: seq<Client>, k: nat, m: Message) returns (thrown: bool)
      requires k < |cs|
      modifies {cs[k]}`colonyBot, cs[k].Sockets()`sent
      ensures thrown <==> cs[k].variant.Bot? && SnapshotTiles(m) == Throws
      ensures thrown ==> cs[k].colonyBot == old(cs[k].colonyBot)
      ensures cs[k].variant.Player? ==>
                cs[k].variant.netClient.sent
                == old(cs[k].variant.netClient.sent) + Delivered(cs[k].variant.netClient.readyState, m)
      ensures !thrown ==> cs[k].colonyBot == if cs[k].variant.Bot? then RebuiltEngine(cs[k], m) else old(cs[k].colonyBot)
      ensures forall s :: s in SocketsOf(cs) ==>
                s.readyState == old(s.readyState) && (s !in cs[k].Sockets() ==> s.sent == old(s.sent))
      ensures forall c :: c in cs && c != cs[k] ==> c.colonyBot == old(c.colonyBot)
    {
      thrown := cs[k].Send(m);
    }

    /** `iter()`: a player flushes its input buffer; the others do nothing. */
    method Iter()
      modifies InputsSet()`queued, InputsSet()`frame
      ensures variant.Player? ==>
                && variant.inputs.queued == []
                && variant.inputs.frame == variant.inputs.rules.apply(old(variant.inputs.frame), old(variant.inputs.queued))
    {
      if variant.Player? {
        variant.inputs.ApplyAccumulatedInputs();
      }
    }

    /** `play()`, against the game interface it calls: a player selects a
      cell of its own tile and asks to move from the game's selection onto
      an empty cell; a bot asks for the move its engine decides. */
    method Play(view: GameView, rules: Rules, decide: BotEngine -> Option<BotMove>) returns (r: Request)
      requires variant.Bot? ==> colonyBot.Some?
      ensures variant.Base? ==> r == NoRequest
      ensures variant.Player? ==>
                var mouse := MouseInput(variant.inputs.frame, rules.inBounds);
                && (mouse.None? ==> r == NoRequest)
                && (mouse.Some? && TileAt(view.tiles, mouse.value) == Some(tile) ==> r == SelectRequest(mouse.value))
                && (mouse.Some? && TileAt(view.tiles, mouse.value) != Some(tile) && TileAt(view.tiles, mouse.value) == Some(EMPTY) ==>
                      r == MoveRequest(FromSelection(view.selected), mouse.value, tile))
                && (mouse.Some? && TileAt(view.tiles, mouse.value) != Some(tile) && TileAt(view.tiles, mouse.value) != Some(EMPTY) ==>
                      r == NoRequest)
      ensures variant.Bot? ==>
                r == match decide(colonyBot.value)
                     case None => NoRequest
                     case Some(move) => MoveRequest(move.from, move.to, tile)
    {
      match variant
      case Base =>
        r := NoRequest;
      case Player(_, inputs) =>
        var mouse := MouseInput(inputs.frame, rules.inBounds);
        if mouse.None? {
          return NoRequest;
        }
        var t := TileAt(view.tiles, mouse.value);
        if t == Some(tile) {
          r := SelectRequest(mouse.value);
        } else if t == Some(EMPTY) {
          r := MoveRequest(FromSelection(view.selected), mouse.value, tile);
        } else {
          r := NoRequest;
        }
      case Bot =>
        var play := decide(colonyBot.value);
        if play.Some? {
          r := MoveRequest(play.value.from, play.value.to, tile);
        } else {
          r := NoRequest;
        }
    }
  }

  class Game {
    const id: Id
    const name: string
    var state: GameState
    const requiredClients: nat
    var clients: seq<Client>
    /** The engine created when the game reaches its quorum. */
    var gameCore: Game?
    var board: Grid
    var turn: int
    var selected: Selection

    /** `new Game()`; `board` is the grid a new board starts with. */
    constructor (id: Id, name: string, board: Grid)
      ensures this.id == id && this.name == name
      ensures state == WaitingForPlayers && requiredClients == NUM_CLIENTS_PER_GAME
      ensures clients == [] && gameCore == null
      ensures EngineState() == Engine.Initial(board)
    {
      this.id := id;
      this.name := name;
      state := WaitingForPlayers;
      requiredClients := NUM_CLIENTS_PER_GAME;
      clients := [];
      gameCore := null;
      this.board := board;
      turn := 0;
      selected := NoSelection;
    }

    function EngineState(): Engine.State
      reads this`turn, this`selected, this`board
    {
      Engine.State(turn, selected, board)
    }

    /** `update(inputsList)`: flush every input buffer, then act on the
      click of the seat whose turn it is, as `Engine.Step` specifies. */
    method Update(inputsList: seq<Inputs>, rules: Rules)
      requires Engine.Valid(EngineState())
      requires Distinct(inputsList)
      modifies this`turn, this`selected, this`board, inputsList`queued, inputsList`frame
      ensures forall j :: 0 <= j < |inputsList| ==>
                && inputsList[j].queued == []
                && inputsList[j].frame == inputsList[j].rules.apply(old(inputsList[j].frame), old(inputsList[j].queued))
      ensures EngineState()
              == Engine.Step(old(EngineState()), Engine.SeatClick(Frames(inputsList), old(turn), rules.inBounds), rules)
    {
      ApplyAll(inputsList);
      var mouseInput: Option<Cell> := None;
      if 0 <= turn < |inputsList| {
        mouseInput := MouseInput(inputsList[turn].frame, rules.inBounds);
      }
      if mouseInput.None? {
        return;
      }
      var c := mouseInput.value;
      var tile := TileAt(board, c);
      if tile == Some(turn + 1) {
        selected := Selected(c);
      } else if tile == Some(EMPTY) && rules.areNear(c, selected, 1) {
        board := rules.applyMove(NullOrigin, c, turn + 1, board);
        ChangeTurn();
      } else if tile == Some(EMPTY) && rules.areNear(c, selected, 2) {
        board := rules.applyMove(FromSelection(selected), c, turn + 1, board);
        ChangeTurn();
      }
    }

    /** `changeTurn`: pass the turn to the other seat and clear the selection.
      The source's `%` truncates toward zero; it agrees with Dafny's `%`
      on the non-negative turns `Engine.Valid` allows. */
    method ChangeTurn()
      requires 0 <= turn
      modifies this`turn, this`selected
      ensures turn == (old(turn) + 1) % 2 && selected == NoSelection
    {
      turn := (turn + 1) % 2;
      selected := NoSelection;
    }

    /** `getStateDiff`: the snapshot sent to the players each tick. */
    function GetStateDiff(rules: Rules): (d: StateDiff)
      reads this`turn, this`selected, this`board
      ensures d.board == EngineState().board && d.turn == EngineState().turn
      ensures d.selected == EngineState().selected
      ensures d.width == rules.width && d.height == rules.height
    {
      StateDiff(rules.width, rules.height, board, turn, selected)
    }
  }
}
