/**
 * The turn engine of `Game` (socketServer.js), as a pure function of its
 * state: the specification that `Session.Game.Update` is proved against, and
 * the place where properties over many ticks are proved.
 */
module Engine {
  import opened Wrappers
  import opened Board
  import opened InputBuffer

  /** A game's `turn`, `selected` and board tiles. */
  datatype State = State(turn: int, selected: Selection, board: Grid)

  /** `turn` names one of the two seats. */
  predicate Valid(e: State)
  {
    0 <= e.turn <= 1
  }

  /** The tile id of the seat whose turn it is. */
  function Seat(e: State): int
  {
    e.turn + 1
  }

  /** A new game: seat 0 to play, nothing selected. */
  function Initial(board: Grid): State
  {
    State(0, NoSelection, board)
  }

  /** The click the engine acts on: the input at index `turn` of the list
      handed to `update`, when there is one, through `getMouseInput`. The
      other seats' inputs are never read. */
  function SeatClick(frames: seq<Frame>, turn: int, inBounds: (int, int) -> bool): Option<Cell>
  {
    if 0 <= turn < |frames| then MouseInput(frames[turn], inBounds) else None
  }

  /** A click on an empty cell near the selection, at distance 1 or 2. */
  predicate IsMove(e: State, c: Cell, rules: Rules)
  {
    TileAt(e.board, c) == Some(EMPTY) && (rules.areNear(c, e.selected, 1) || rules.areNear(c, e.selected, 2))
  }

  predicate Accepted(e: State, click: Option<Cell>, rules: Rules)
  {
    click.Some? && IsMove(e, click.value, rules)
  }

  /** A move at distance 1 is simple (no origin); otherwise it jumps from the selection. */
  function MoveOrigin(e: State, c: Cell, rules: Rules): Origin
  {
    if rules.areNear(c, e.selected, 1) then NullOrigin else FromSelection(e.selected)
  }

  /** `changeTurn`. */
  function Turned(e: State): State
  {
    State((e.turn + 1) % 2, NoSelection, e.board)
  }

  /** One `update` acting on `click`. */
  function Step(e: State, click: Option<Cell>, rules: Rules): (r: State)
    requires Valid(e)
    ensures Valid(r)
    ensures click.None? ==> r == e
    ensures click.Some? && TileAt(e.board, click.value) == Some(Seat(e)) ==>
              r == e.(selected := Selected(click.value))
    ensures Accepted(e, click, rules) ==>
              && r.turn == 1 - e.turn
              && r.selected == NoSelection
              && r.board == rules.applyMove(MoveOrigin(e, click.value, rules), click.value, Seat(e), e.board)
    ensures click.Some? && TileAt(e.board, click.value) != Some(Seat(e)) && !Accepted(e, click, rules) ==> r == e
    ensures r.turn == if Accepted(e, click, rules) then 1 - e.turn else e.turn
  {
    match click
    case None => e
    case Some(c) =>
      var tile := TileAt(e.board, c);
      if tile == Some(Seat(e)) then
        e.(selected := Selected(c))
      else if tile == Some(EMPTY) && rules.areNear(c, e.selected, 1) then
        Turned(e.(board := rules.applyMove(NullOrigin, c, Seat(e), e.board)))
      else if tile == Some(EMPTY) && rules.areNear(c, e.selected, 2) then
        Turned(e.(board := rules.applyMove(FromSelection(e.selected), c, Seat(e), e.board)))
      else
        e
  }

  /** A sequence of ticks, each acting on one click. */
  function Run(e: State, clicks: seq<Option<Cell>>, rules: Rules): (r: State)
    requires Valid(e)
    ensures Valid(r)
    decreases |clicks|
  {
    if clicks == [] then e else Run(Step(e, clicks[0], rules), clicks[1..], rules)
  }

  /** The owners passed to `applyMove` during a run, in order. */
  function Movers(e: State, clicks: seq<Option<Cell>>, rules: Rules): seq<int>
    requires Valid(e)
    decreases |clicks|
  {
    if clicks == [] then []
    else (if Accepted(e, clicks[0], rules) then [Seat(e)] else [])
         + Movers(Step(e, clicks[0], rules), clicks[1..], rules)
  }

  /** Turn alternation: the k-th accepted move of a run is made by the seat
      k turns after the starting one, and the turn at the end has advanced
      once per accepted move. */
  lemma {:induction false} MoversAlternate(e: State, clicks: seq<Option<Cell>>, rules: Rules)
    requires Valid(e)
    ensures Run(e, clicks, rules).turn == (e.turn + |Movers(e, clicks, rules)|) % 2
    ensures forall k :: 0 <= k < |Movers(e, clicks, rules)| ==>
              Movers(e, clicks, rules)[k] == (e.turn + k) % 2 + 1
    decreases |clicks|
  {
    if clicks != [] {
      var next := Step(e, clicks[0], rules);
      MoversAlternate(next, clicks[1..], rules);
      var rest := Movers(next, clicks[1..], rules);
      if Accepted(e, clicks[0], rules) {
        var all := [Seat(e)] + rest;
        assert Movers(e, clicks, rules) == all;
        forall k | 0 <= k < |all|
          ensures all[k] == (e.turn + k) % 2 + 1
        {
          if k > 0 {
            assert all[k] == rest[k - 1];
            OtherSeatShift(e.turn, k - 1);
          }
        }
        OtherSeatShift(e.turn, |rest|);
      } else {
        assert Movers(e, clicks, rules) == rest;
      }
    }
  }

  /** Counting from the other seat is counting one step further. */
  lemma OtherSeatShift(t: int, k: nat)
    requires 0 <= t <= 1
    ensures (1 - t + k) % 2 == (t + k + 1) % 2
  {
    if t == 1 {
      assert 1 - t + k == k && t + k + 1 == k + 2;
    }
  }

  /** From a new game the moves are made by tile ids 1, 2, 1, 2, ... */
  lemma SeatsAlternateFromStart(board: Grid, clicks: seq<Option<Cell>>, rules: Rules)
    ensures forall k :: 0 <= k < |Movers(Initial(board), clicks, rules)| ==>
              Movers(Initial(board), clicks, rules)[k] == k % 2 + 1
    ensures Run(Initial(board), clicks, rules).turn == |Movers(Initial(board), clicks, rules)| % 2
  {
    MoversAlternate(Initial(board), clicks, rules);
  }

  /** Only the input of the seat on turn matters: two input lists that agree
      at index `turn` lead to the same new state. */
  lemma OnlySeatOnTurnActs(e: State, frames1: seq<Frame>, frames2: seq<Frame>, rules: Rules)
    requires Valid(e)
    requires e.turn < |frames1| <==> e.turn < |frames2|
    requires e.turn < |frames1| ==> frames1[e.turn] == frames2[e.turn]
    ensures Step(e, SeatClick(frames1, e.turn, rules.inBounds), rules)
         == Step(e, SeatClick(frames2, e.turn, rules.inBounds), rules)
  {
  }
}
