/**
 * The bookkeeping behind the server's two lists: which clients the sweep
 * drops, the filters it applies, and the invariant that ties clients,
 * games and engines together.
 */
module Rosters {
  import opened Seqs
  import opened Protocol
  import opened Net
  import opened Session

  /** The clients among the first `n` of `cs` whose verdict in `alive` was
      false: those the sweep has dropped after visiting `n` clients. */
  function Dropped(cs: seq<Client>, alive: seq<bool>, n: nat): set<Client>
    requires n <= |cs| && n <= |alive|
  {
    set j | 0 <= j < n && !alive[j] :: cs[j]
  }

  /** One more verdict drops at most the one client it is about, and leaves
      what was dropped before each earlier visit as it was. */
  lemma DroppedStep(cs: seq<Client>, alive: seq<bool>, b: bool)
    requires |alive| < |cs|
    ensures b ==> Dropped(cs, alive + [b], |alive| + 1) == Dropped(cs, alive, |alive|)
    ensures !b ==> Dropped(cs, alive + [b], |alive| + 1) == Dropped(cs, alive, |alive|) + {cs[|alive|]}
    ensures forall n :: 0 <= n <= |alive| ==> Dropped(cs, alive + [b], n) == Dropped(cs, alive, n)
  {
    var i := |alive|;
    forall n | 0 <= n <= i ensures Dropped(cs, alive + [b], n) == Dropped(cs, alive, n)
    {
      assert forall j :: 0 <= j < n ==> (alive + [b])[j] == alive[j];
    }
    var l, r := Dropped(cs, alive + [b], i + 1), Dropped(cs, alive, i) + (if b then {} else {cs[i]});
    forall c | c in l ensures c in r
    {
      var j :| 0 <= j < i + 1 && !(alive + [b])[j] && cs[j] == c;
    }
    forall c | c in r ensures c in l
    {
      if c !in Dropped(cs, alive, i) {
        assert cs[i] == c && !(alive + [b])[i];
      }
    }
  }

  /** In a list without repetitions, a client is not among those dropped
      before it is visited. */
  lemma NotYetDropped(cs: seq<Client>, alive: seq<bool>, i: nat)
    requires Distinct(cs) && i < |cs| && i <= |alive|
    ensures cs[i] !in Dropped(cs, alive, i)
  {
    DistinctPairs(cs);
  }

  /** What the sweep remembers of the state it started from: each
      player's socket state, each client's game and state, and each game's
      client list and state. */
  datatype Snapshot = Snapshot(
    ready: map<Client, ReadyState>,
    homes: map<Client, Game?>,
    stages: map<Client, ClientState>,
    lists: map<Game, seq<Client>>,
    phases: map<Game, GameState>)

  function Snap(cs: seq<Client>, gs: seq<Game>): Snapshot
    reads cs, gs, SocketsOf(cs)
  {
    Snapshot(
      map c | c in cs && c.variant.Player? :: c.variant.netClient.readyState,
      map c | c in cs :: c.game,
      map c | c in cs :: c.state,
      map g | g in gs :: g.clients,
      map g | g in gs :: g.state)
  }

  /** The registry's links as a snapshot records them: every listed
      client's game is the game listing it and conversely, a client
      without a game is in the lobby, and every bot has a game. */
  ghost predicate Seating(cs: seq<Client>, gs: seq<Game>, s: Snapshot)
  {
    && (forall x :: x in cs ==> x in s.homes && x in s.stages)
    && (forall h :: h in s.lists ==> h in gs)
    && Listed(s)
    && Homed(s)
    && (forall x :: x in s.homes && x in s.stages && s.homes[x] == null ==> s.stages[x] == Lobby)
    && (forall x :: x in cs && x.variant.Bot? ==> s.homes[x] != null)
  }

  /** A client listed by a game has that game as its own. */
  ghost predicate Listed(s: Snapshot)
  {
    forall h, x :: h in s.lists && x in s.lists[h] ==> x in s.homes && s.homes[x] == h
  }

  /** A client with a game is listed by it. */
  ghost predicate Homed(s: Snapshot)
  {
    forall x :: x in s.homes && s.homes[x] != null ==> s.homes[x] in s.lists && x in s.lists[s.homes[x]]
  }

  /** What the sweep needs of the registry: distinct clients, and the
      links of the current state. */
  ghost predicate Seated(cs: seq<Client>, gs: seq<Game>)
    reads cs, gs, SocketsOf(cs)
  {
    Distinct(cs) && Seating(cs, gs, Snap(cs, gs))
  }

  /** The registry invariant, with every bot seated, gives the sweep what
      it needs. */
  lemma SeatingHolds(cs: seq<Client>, gs: seq<Game>)
    requires Registered(cs, gs)
    requires forall c :: c in cs && c.variant.Bot? ==> c.game != null
    ensures Seated(cs, gs)
  {
  }

  /** `isAlive()` as the sweep evaluates it when it visits `c`: `s` holds
      the players' socket states and the games' client lists before the
      sweep, and `d` the clients already dropped, which have left those
      lists by then. */
  predicate Verdict(c: Client, v: bool, s: Snapshot, d: set<Client>)
  {
    match c.variant
    case Base => !v
    case Player(_, _) => c in s.ready && (v <==> s.ready[c] != Closed)
    case Bot =>
      && c in s.homes && s.homes[c] != null && s.homes[c] in s.lists
      && (v <==> |WithoutSet(s.lists[s.homes[c]], d)| == NUM_CLIENTS_PER_GAME)
  }

  /** Each of the first `|alive|` clients got the verdict `isAlive()` gave
      at its visit. */
  predicate Verdicts(cs: seq<Client>, alive: seq<bool>, s: Snapshot)
    requires |alive| <= |cs|
  {
    forall j :: 0 <= j < |alive| ==> Verdict(cs[j], alive[j], s, Dropped(cs, alive, j))
  }

  /** A further verdict extends the record without changing the earlier ones. */
  lemma VerdictsSnoc(cs: seq<Client>, alive: seq<bool>, s: Snapshot, v: bool)
    requires |alive| < |cs| && Verdicts(cs, alive, s)
    requires Verdict(cs[|alive|], v, s, Dropped(cs, alive, |alive|))
    ensures Verdicts(cs, alive + [v], s)
  {
    DroppedStep(cs, alive, v);
    forall j | 0 <= j < |alive| + 1
      ensures Verdict(cs[j], (alive + [v])[j], s, Dropped(cs, alive + [v], j))
    {
      if j < |alive| {
        assert (alive + [v])[j] == alive[j];
      }
    }
  }

  /** The dropped clients are back in the lobby without a game. */
  ghost predicate Detached(d: set<Client>)
    reads d
  {
    forall c :: c in d ==> c.game == null && c.state == Lobby
  }

  lemma DetachedAdd(d: set<Client>, c: Client)
    requires Detached(d) && c.game == null && c.state == Lobby
    ensures Detached(d + {c})
  {
  }

  /** The clients of `cs` that were not dropped kept their game and state. */
  ghost predicate Untouched(cs: seq<Client>, d: set<Client>, s: Snapshot)
    reads cs
  {
    forall c {:trigger c in cs} :: c in cs && c !in d ==>
      c in s.homes && c in s.stages && c.game == s.homes[c] && c.state == s.stages[c]
  }

  /** Every game has lost exactly the dropped clients from the list it had,
      and is ABANDONED if it lost any, keeping its state otherwise. */
  ghost predicate Swept(gs: seq<Game>, s: Snapshot, d: set<Client>)
    reads gs
  {
    forall g {:trigger g in gs} :: g in gs ==>
      && g in s.lists && g in s.phases
      && g.clients == WithoutSet(s.lists[g], d)
      && g.state == if g.clients == s.lists[g] then s.phases[g] else Abandoned
  }

  /** The outcome of the sweep's visits over `cs` and `gs` with verdicts
      `alive`, started from `s`: the verdicts are those `isAlive()` gave,
      the dropped clients are detached, the others untouched, and the
      games have lost exactly the dropped clients. */
  ghost predicate Cleaned(cs: seq<Client>, gs: seq<Game>, alive: seq<bool>, s: Snapshot)
    requires |alive| == |cs|
    reads cs, gs
  {
    && Verdicts(cs, alive, s)
    && Detached(Dropped(cs, alive, |cs|))
    && Untouched(cs, Dropped(cs, alive, |cs|), s)
    && Swept(gs, s, Dropped(cs, alive, |cs|))
  }

  /** What `leaveGame` does to a client and its game; every other game of
      `gs` is left as it was. */
  method Detach(c: Client, ghost gs: seq<Game>)
    requires c.game != null
    modifies c`game, c`state, c.game`state, c.game`clients
    ensures c.game == null && c.state == Lobby
    ensures old(c.game).state == Abandoned
    ensures old(c.game).clients == Remove(old(c.game.clients), c)
    ensures forall h :: h in gs && h != old(c.game) ==> h.clients == old(h.clients) && h.state == old(h.state)
  {
    var g := c.game;
    g.state := Abandoned;
    g.clients := Remove(g.clients, c);
    c.game := null;
    c.state := Lobby;
  }

  /** The sweep's visit of a client found dead: it leaves its game if it
      has one. The dropped clients, the untouched ones and the games' lists
      then account for one more dropped client. */
  method Retire(c: Client, ghost cs: seq<Client>, ghost gs: seq<Game>, ghost d: set<Client>, ghost s: Snapshot)
    requires c in cs && c !in d && Seating(cs, gs, s)
    requires Detached(d) && Untouched(cs, d, s) && Swept(gs, s, d)
    modifies c`game, c`state, gs`clients, gs`state
    ensures Detached(d + {c}) && Untouched(cs, d + {c}, s) && Swept(gs, s, d + {c})
  {
    ghost var g := c.game;
    if c.game != null {
      Detach(c, gs);
    } else {
      assert c.state == s.stages[c] == Lobby;
    }
    RetireKeeps(c, g, cs, gs, d, s);
  }

  /** After a dead client's visit, the account of the sweep covers it too. */
  twostate lemma RetireKeeps(new c: Client, new g: Game?, new cs: seq<Client>, new gs: seq<Game>, new d: set<Client>, new s: Snapshot)
    requires old(allocated(c)) && old(allocated(g)) && old(allocated(cs)) && old(allocated(gs)) && old(allocated(d)) && old(allocated(s))
    requires c in cs && c !in d && Seating(cs, gs, s) && g == old(c.game)
    requires old(Detached(d) && Untouched(cs, d, s) && Swept(gs, s, d))
    requires c.game == null && c.state == Lobby
    requires g != null ==> g.clients == Remove(old(g.clients), c) && g.state == Abandoned
    requires forall x :: (x in cs || x in d) && x != c ==> x.game == old(x.game) && x.state == old(x.state)
    requires forall h :: h in gs && h != g ==> h.clients == old(h.clients) && h.state == old(h.state)
    ensures Detached(d + {c}) && Untouched(cs, d + {c}, s) && Swept(gs, s, d + {c})
  {
    UntouchedDrop(cs, c, s, d);
    SweptDrop(gs, c, g, s, d);
  }

  /** A dropped client no longer needs to be untouched. */
  twostate lemma UntouchedDrop(new cs: seq<Client>, new c: Client, new s: Snapshot, new d: set<Client>)
    requires old(allocated(cs)) && old(allocated(s)) && old(allocated(d)) && old(Untouched(cs, d, s))
    requires forall x :: x in cs && x != c ==> x.game == old(x.game) && x.state == old(x.state)
    ensures Untouched(cs, d + {c}, s)
  {
  }

  /** A dead client's leaving takes it out of the one list that still
      names it, the list of `g`, its game. */
  twostate lemma SweptDrop(new gs: seq<Game>, new c: Client, new g: Game?, new s: Snapshot, new d: set<Client>)
    requires old(allocated(gs)) && old(allocated(c)) && old(allocated(g)) && old(allocated(s)) && old(allocated(d))
    requires old(Swept(gs, s, d)) && Listed(s) && Homed(s) && c in s.homes && g == s.homes[c]
    requires g != null ==> g.clients == Remove(old(g.clients), c) && g.state == Abandoned
    requires forall h :: h in gs && h != g ==> h.clients == old(h.clients) && h.state == old(h.state)
    ensures Swept(gs, s, d + {c})
  {
    forall h | h in gs
      ensures h.clients == WithoutSet(s.lists[h], d + {c})
      ensures h.state == if h.clients == s.lists[h] then s.phases[h] else Abandoned
    {
      WithoutSetAdd(s.lists[h], d, c);
      if h == g {
        assert c in s.lists[h] && c !in h.clients;
      } else {
        assert c !in old(h.clients);
      }
    }
  }

  /** The filter of `cleanClosedClientsAndGames`: each client of `cs` is
      asked `isAlive()` in list order, and one found dead leaves its game
      before the next client is asked. `alive[j]` is the verdict on `cs[j]`. */
  method Visit(cs: seq<Client>, ghost gs: seq<Game>) returns (alive: seq<bool>)
    requires Seated(cs, gs)
    modifies cs`game, cs`state, gs`clients, gs`state
    ensures |alive| == |cs| && Cleaned(cs, gs, alive, old(Snap(cs, gs)))
  {
    ghost var s := Snap(cs, gs);
    SnapStarts(cs, gs);
    alive := VisitFrom(cs, gs, s);
  }

  /** The players' socket states recorded in `s` are the current ones. */
  ghost predicate Readies(cs: seq<Client>, s: Snapshot)
    reads cs, SocketsOf(cs)
  {
    forall c :: c in cs && c.variant.Player? ==> c in s.ready && s.ready[c] == c.variant.netClient.readyState
  }

  /** Before any visit, the snapshot of the current state describes it. */
  lemma SnapStarts(cs: seq<Client>, gs: seq<Game>)
    requires Seated(cs, gs)
    ensures Readies(cs, Snap(cs, gs))
    ensures Untouched(cs, {}, Snap(cs, gs)) && Swept(gs, Snap(cs, gs), {})
  {
    forall g | g in gs ensures WithoutSet(g.clients, {}) == g.clients
    {
      WithoutSetEmpty(g.clients);
    }
  }

  /** The loop of `Visit`, from the recorded snapshot `s`. */
  method VisitFrom(cs: seq<Client>, ghost gs: seq<Game>, ghost s: Snapshot) returns (alive: seq<bool>)
    requires Distinct(cs) && Seating(cs, gs, s) && Readies(cs, s)
    requires Untouched(cs, {}, s) && Swept(gs, s, {})
    modifies cs`game, cs`state, gs`clients, gs`state
    ensures |alive| == |cs| && Cleaned(cs, gs, alive, s)
  {
    alive := [];
    assert Dropped(cs, alive, 0) == {};
    for i := 0 to |cs|
      invariant |alive| == i
      invariant Verdicts(cs, alive, s)
      invariant Detached(Dropped(cs, alive, i))
      invariant Untouched(cs, Dropped(cs, alive, i), s)
      invariant Swept(gs, s, Dropped(cs, alive, i))
    {
      var verdict := VisitOne(cs, gs, s, alive, i);
      alive := alive + [verdict];
    }
  }

  /** The visit of `cs[|alive|]`: its verdict extends `alive`, and the
      dropped clients, the untouched ones and the games' lists account for
      the visit. */
  method VisitOne(cs: seq<Client>, ghost gs: seq<Game>, ghost s: Snapshot, ghost alive: seq<bool>, i: nat)
    returns (verdict: bool)
    requires Distinct(cs) && Seating(cs, gs, s) && Readies(cs, s) && i == |alive| < |cs|
    requires Verdicts(cs, alive, s) && Detached(Dropped(cs, alive, |alive|))
    requires Untouched(cs, Dropped(cs, alive, |alive|), s) && Swept(gs, s, Dropped(cs, alive, |alive|))
    modifies cs`game, cs`state, gs`clients, gs`state
    ensures Verdicts(cs, alive + [verdict], s)
    ensures Detached(Dropped(cs, alive + [verdict], |alive| + 1))
    ensures Untouched(cs, Dropped(cs, alive + [verdict], |alive| + 1), s)
    ensures Swept(gs, s, Dropped(cs, alive + [verdict], |alive| + 1))
  {
    var c := cs[i];
    ghost var d := Dropped(cs, alive, i);
    NotYetDropped(cs, alive, i);
    assert c in cs;
    verdict := c.IsAlive();
    if !verdict {
      Retire(c, cs, gs, d, s);
    }
    DroppedStep(cs, alive, verdict);
    VerdictsSnoc(cs, alive, s, verdict);
  }

  /** After the sweep's visits the two lists still form a registry: the
      dropped clients are detached and no list names them any more. */
  twostate lemma SweptKeeps(new cs: seq<Client>, new gs: seq<Game>, new alive: seq<bool>)
    requires old(allocated(cs)) && old(allocated(gs))
    requires old(Registered(cs, gs)) && |alive| == |cs| && Cleaned(cs, gs, alive, old(Snap(cs, gs)))
    requires forall h :: h in gs ==> h.gameCore == old(h.gameCore)
    requires forall h :: h in gs && h.gameCore != null ==> h.gameCore.turn == old(h.gameCore.turn)
    ensures Registered(cs, gs)
  {
    var d := Dropped(cs, alive, |cs|);
    forall g | g in gs ensures Distinct(g.clients) && Members(g, cs)
    {
      WithoutSetDistinct(old(g.clients), d);
      forall x | x in g.clients ensures x in cs && x.game == g
      {
        assert x in old(g.clients) && x !in d;
      }
    }
    forall c | c in cs && c.game != null ensures c.game in gs && c in c.game.clients
    {
      assert c !in d && c.game == old(c.game);
      assert c in old(c.game.clients);
    }
  }

  /** Whether each game of `gs` still has a client. */
  function NonEmptyFlags(gs: seq<Game>): (r: seq<bool>)
    reads gs`clients
    ensures |r| == |gs|
    ensures forall i :: 0 <= i < |gs| ==> (r[i] <==> |gs[i].clients| > 0)
    decreases |gs|
  {
    if gs == [] then [] else NonEmptyFlags(gs[..|gs| - 1]) + [|gs[|gs| - 1].clients| > 0]
  }

  /** `games.filter(game => game.clients.length)`. */
  function Populated(gs: seq<Game>): (r: seq<Game>)
    reads gs`clients
    ensures forall g :: g in r ==> g in gs && |g.clients| > 0
    ensures forall g :: g in gs && |g.clients| > 0 ==> g in r
    ensures Distinct(gs) ==> Distinct(r)
  {
    var keep := NonEmptyFlags(gs);
    KeepWitness(gs, keep);
    assert Distinct(gs) ==> Distinct(Keep(gs, keep)) by {
      if Distinct(gs) {
        KeepDistinct(gs, keep);
      }
    }
    forall g | g in gs && |g.clients| > 0 ensures g in Keep(gs, keep)
    {
      var i :| 0 <= i < |gs| && gs[i] == g;
      KeepMember(gs, keep, i);
    }
    Keep(gs, keep)
  }

  /** Whether a client receives the lobby broadcast: it is in the lobby, or
      its game is not in progress. */
  predicate InLobbyView(c: Client)
    requires c.state == InGame ==> c.game != null
    reads c`state, c`game, ({c.game} - {null})`state
  {
    c.state == Lobby || c.game.state != InProgress
  }

  function GamesOf(cs: seq<Client>): set<Game?>
    reads cs
  {
    set c | c in cs && c.game != null :: c.game
  }

  /** The lobby verdict for each client of `cs`. */
  function LobbyFlags(cs: seq<Client>): (r: seq<bool>)
    requires forall c :: c in cs && c.state == InGame ==> c.game != null
    reads cs, GamesOf(cs)
    ensures |r| == |cs|
    ensures forall i :: 0 <= i < |cs| ==> (r[i] <==> InLobbyView(cs[i]))
    decreases |cs|
  {
    if cs == [] then [] else LobbyFlags(cs[..|cs| - 1]) + [InLobbyView(cs[|cs| - 1])]
  }

  /** The engines of the games `gs`. */
  function CoresOf(gs: seq<Game>): set<Game?>
    reads gs`gameCore
  {
    set g | g in gs && g.gameCore != null :: g.gameCore
  }

  /** The invariant of a client list `cs` and a game list `gs`. */
  ghost predicate Registered(cs: seq<Client>, gs: seq<Game>)
    reads cs`game, cs`state, gs`clients, gs`state, gs`gameCore, CoresOf(gs)`turn
  {
    Unrepeated(cs, gs) && Linked(cs, gs) && Engines(gs)
  }

  /** Neither list, nor any game's member list, holds a repetition, and no
      two players share an input buffer. */
  ghost predicate Unrepeated(cs: seq<Client>, gs: seq<Game>)
    reads gs`clients
  {
    && Distinct(cs)
    && Distinct(gs)
    && (forall g :: g in gs ==> Distinct(g.clients))
    && (forall c, d {:trigger c.variant.inputs, d.variant.inputs} ::
          c in cs && d in cs && c.variant.Player? && d.variant.Player? && c.variant.inputs == d.variant.inputs
          ==> c == d)
  }

  /** A client is IN_GAME exactly when it has a game; a client's game is
      registered and lists it; every member of a registered game is a
      registered client pointing back at it. */
  ghost predicate Linked(cs: seq<Client>, gs: seq<Game>)
    reads cs`game, cs`state, gs`clients
  {
    && (forall c :: c in cs ==> (c.game != null <==> c.state == InGame))
    && (forall c :: c in cs && c.game != null ==> c.game in gs && c in c.game.clients)
    && (forall g :: g in gs ==> Members(g, cs))
  }

  /** A game in progress has an engine whose turn is a seat, and no two
      games share an engine. */
  ghost predicate Engines(gs: seq<Game>)
    reads gs`state, gs`gameCore, CoresOf(gs)`turn
  {
    && (forall g :: g in gs && g.state == InProgress ==> g.gameCore != null && 0 <= g.gameCore.turn <= 1)
    && (forall g, h {:trigger g.gameCore, h.gameCore} ::
          g in gs && h in gs && g.gameCore != null && g.gameCore == h.gameCore ==> g == h)
  }

  /** The invariant depends only on the links between clients and games,
      their states and the engines' turns. */
  twostate lemma RegisteredStays(new cs: seq<Client>, new gs: seq<Game>)
    requires old(allocated(cs)) && old(allocated(gs))
    requires old(Registered(cs, gs))
    requires forall c :: c in cs ==> old(c.game) == c.game && old(c.state) == c.state
    requires forall g :: g in gs ==> old(g.clients) == g.clients && old(g.state) == g.state
    requires forall g :: g in gs ==> old(g.gameCore) == g.gameCore
    requires forall g :: g in gs && g.gameCore != null ==> old(g.gameCore.turn) == g.gameCore.turn
    ensures Registered(cs, gs)
  {
  }

  /** One engine's move keeps the invariant as long as its turn stays a seat. */
  twostate lemma TurnKept(new cs: seq<Client>, new gs: seq<Game>, new g: Game)
    requires old(allocated(cs)) && old(allocated(gs)) && old(allocated(g))
    requires old(Registered(cs, gs)) && g in gs && g.gameCore != null && 0 <= g.gameCore.turn <= 1
    requires forall c :: c in cs ==> old(c.game) == c.game && old(c.state) == c.state
    requires forall h :: h in gs ==> old(h.clients) == h.clients && old(h.state) == h.state
    requires forall h :: h in gs ==> old(h.gameCore) == h.gameCore
    requires forall h :: h in gs && h.gameCore != null && h.gameCore != g.gameCore ==> old(h.gameCore.turn) == h.gameCore.turn
    ensures Registered(cs, gs)
  {
  }

  /** `leaveGame`: the client drops out of its game `g`, which is abandoned;
      nothing else changes. */
  twostate lemma DetachKeeps(new cs: seq<Client>, new gs: seq<Game>, new c: Client, new g: Game)
    requires old(allocated(cs)) && old(allocated(gs)) && old(allocated(c)) && old(allocated(g))
    requires old(Registered(cs, gs)) && c in cs && old(c.game) == g
    requires c.game == null && c.state == Lobby
    requires g.clients == Remove(old(g.clients), c) && g.state == Abandoned && g.gameCore == old(g.gameCore)
    requires forall d :: d in cs && d != c ==> d.game == old(d.game) && d.state == old(d.state)
    requires forall h :: h in gs && h != g ==>
               h.clients == old(h.clients) && h.state == old(h.state) && h.gameCore == old(h.gameCore)
    requires forall h :: h in gs && h.gameCore != null ==> h.gameCore.turn == old(h.gameCore.turn)
    ensures Registered(cs, gs)
  {
    RemoveDistinct(old(g.clients), c);
  }

  /** The second half of `joinGame`: a client without a game becomes the
      last member of `g`; nothing else changes. */
  twostate lemma AttachKeeps(new cs: seq<Client>, new gs: seq<Game>, new c: Client, new g: Game)
    requires old(allocated(cs)) && old(allocated(gs)) && old(allocated(c)) && old(allocated(g))
    requires old(Registered(cs, gs)) && c in cs && g in gs && old(c.game) == null
    requires c.game == g && c.state == InGame
    requires g.clients == old(g.clients) + [c] && g.state == old(g.state) && g.gameCore == old(g.gameCore)
    requires forall d :: d in cs && d != c ==> d.game == old(d.game) && d.state == old(d.state)
    requires forall h :: h in gs && h != g ==>
               h.clients == old(h.clients) && h.state == old(h.state) && h.gameCore == old(h.gameCore)
    requires forall h :: h in gs && h.gameCore != null ==> h.gameCore.turn == old(h.gameCore.turn)
    ensures Registered(cs, gs)
  {
    DistinctSnoc(old(g.clients), c);
  }

  /** The quorum transition: `g` goes IN_PROGRESS with an engine no game
      had before; nothing else changes. */
  twostate lemma StartKeeps(new cs: seq<Client>, new gs: seq<Game>, new g: Game)
    requires old(allocated(cs)) && old(allocated(gs)) && old(allocated(g))
    requires old(Registered(cs, gs)) && g in gs
    requires g.state == InProgress && g.gameCore != null && 0 <= g.gameCore.turn <= 1
    requires forall h :: h in gs ==> old(h.gameCore) != g.gameCore
    requires g.clients == old(g.clients)
    requires forall d :: d in cs ==> d.game == old(d.game) && d.state == old(d.state)
    requires forall h :: h in gs && h != g ==>
               h.clients == old(h.clients) && h.state == old(h.state) && h.gameCore == old(h.gameCore)
    requires forall h :: h in gs && h != g && h.gameCore != null ==> h.gameCore.turn == old(h.gameCore.turn)
    ensures Registered(cs, gs)
  {
  }

  /** A new client joins the registry in the lobby. */
  lemma EnrolKeeps(cs: seq<Client>, gs: seq<Game>, c: Client)
    requires Registered(cs, gs) && c !in cs && c.game == null && c.state == Lobby
    requires c.variant.Player? ==> forall d :: d in cs && d.variant.Player? ==> d.variant.inputs != c.variant.inputs
    ensures Registered(cs + [c], gs)
  {
    DistinctSnoc(cs, c);
  }

  /** `EnrolKeeps` for a client allocated since the old state. */
  twostate lemma FreshEnrol(new cs: seq<Client>, new gs: seq<Game>, new c: Client)
    requires old(allocated(cs)) && old(allocated(gs)) && old(Registered(cs, gs)) && fresh(c)
    requires c.variant.Player? ==> fresh(c.variant.inputs)
    requires unchanged(cs) && unchanged(gs) && unchanged(CoresOf(gs))
    requires c.game == null && c.state == Lobby
    ensures Registered(cs + [c], gs)
  {
    EnrolKeeps(cs, gs, c);
  }

  /** A new game, without members or engine, joins the registry. */
  lemma OpenKeeps(cs: seq<Client>, gs: seq<Game>, g: Game)
    requires Registered(cs, gs) && g !in gs
    requires g.clients == [] && g.state != InProgress && g.gameCore == null
    ensures Registered(cs, gs + [g])
  {
    DistinctSnoc(gs, g);
    assert CoresOf(gs + [g]) == CoresOf(gs);
  }

  /** `OpenKeeps` for a game allocated since the old state. */
  twostate lemma FreshOpen(new cs: seq<Client>, new gs: seq<Game>, new g: Game)
    requires old(allocated(cs)) && old(allocated(gs)) && old(Registered(cs, gs)) && fresh(g)
    requires unchanged(cs) && unchanged(gs) && unchanged(CoresOf(gs))
    requires g.clients == [] && g.state != InProgress && g.gameCore == null
    ensures Registered(cs, gs + [g])
  {
    OpenKeeps(cs, gs, g);
  }

  /** Every member of `g` is a client of `cs` that points back at `g`. */
  predicate Members(g: Game, cs: seq<Client>)
    reads g`clients, cs`game
  {
    forall c :: c in g.clients ==> c in cs && c.game == g
  }

  /** Dropping the clients that left their games, and then the games left
      without clients, keeps the invariant. */
  lemma CompactRegistered(cs: seq<Client>, gs: seq<Game>, alive: seq<bool>)
    requires Registered(cs, gs) && |alive| == |cs|
    requires forall c :: c in Dropped(cs, alive, |cs|) ==> c.game == null
    ensures Registered(Keep(cs, alive), Populated(gs))
  {
    var kept, populated := Keep(cs, alive), Populated(gs);
    KeepDistinct(cs, alive);
    SeatedSurvive(cs, alive);
    PopulatedSeats(cs, gs, kept);
    RegisteredSub(cs, gs, kept, populated);
  }

  /** Lists drawn from a registry that are closed under the links between
      clients and games form a registry. */
  lemma RegisteredSub(cs: seq<Client>, gs: seq<Game>, cs2: seq<Client>, gs2: seq<Game>)
    requires Registered(cs, gs) && Distinct(cs2) && Distinct(gs2)
    requires forall c :: c in cs2 ==> c in cs
    requires forall g :: g in gs2 ==> g in gs
    requires forall c :: c in cs2 && c.game != null ==> c.game in gs2
    requires forall g, c :: g in gs2 && c in g.clients ==> c in cs2
    ensures Registered(cs2, gs2)
  {
    assert CoresOf(gs2) <= CoresOf(gs);
  }

  /** A client with a game sits in a populated game. */
  lemma PopulatedSeats(cs: seq<Client>, gs: seq<Game>, kept: seq<Client>)
    requires forall c :: c in cs && c.game != null ==> c.game in gs && c in c.game.clients
    requires forall c :: c in kept ==> c in cs
    ensures forall c :: c in kept && c.game != null ==> c.game in Populated(gs)
  {
  }

  /** A client that still has a game after the sweep was not dropped. */
  lemma SeatedSurvive(cs: seq<Client>, alive: seq<bool>)
    requires |alive| == |cs|
    requires forall c :: c in Dropped(cs, alive, |cs|) ==> c.game == null
    ensures forall c :: c in cs && c.game != null ==> c in Keep(cs, alive)
  {
    forall c | c in cs && c.game != null ensures c in Keep(cs, alive)
    {
      var k :| 0 <= k < |cs| && cs[k] == c;
      KeepMember(cs, alive, k);
    }
  }
}
