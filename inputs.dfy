/**
 * A player's input buffer. Inputs.js is not part of this model: the events a
 * client sends are opaque, and how `applyAccumulatedInputs` turns the queued
 * events into the state read during a tick is a function value fixed when
 * the buffer is created. What the server relies on is modelled: events are
 * queued between ticks, a flush consumes the queue, and afterwards the buffer
 * says whether the mouse key is triggered and on which cell.
 */
module InputBuffer {
  import opened Wrappers
  import opened Board
  import opened Seqs

  /** The `input` payload of an `input-game` message. */
  type RawInput = string

  /** What a flush leaves for the current tick: `isTriggered('mouse')` and
      the mouse position, already converted to a board cell. */
  datatype Frame = Frame(mouseTriggered: bool, mouse: Cell)

  /** The behaviour of `new Inputs()` and of `applyAccumulatedInputs`. */
  datatype InputRules = InputRules(initial: Frame, apply: (Frame, seq<RawInput>) -> Frame)

  class Inputs {
    const rules: InputRules
    /** Events accumulated since the last flush. */
    var queued: seq<RawInput>
    /** The state the last flush produced. */
    var frame: Frame

    constructor (rules: InputRules)
      ensures this.rules == rules && queued == [] && frame == rules.initial
    {
      this.rules := rules;
      queued := [];
      frame := rules.initial;
    }

    /** `accumulateInput`: queue an event; nothing is visible before the next flush. */
    method AccumulateInput(input: RawInput)
      modifies this`queued
      ensures queued == old(queued) + [input]
    {
      queued := queued + [input];
    }

    /** `applyAccumulatedInputs`: consume the queue into the tick's state. */
    method ApplyAccumulatedInputs()
      modifies this`queued, this`frame
      ensures queued == []
      ensures frame == rules.apply(old(frame), old(queued))
    {
      frame := rules.apply(frame, queued);
      queued := [];
    }
  }

  /** The first step of `Game.update`: every buffer of the list is flushed,
      in list order. */
  method ApplyAll(xs: seq<Inputs>)
    requires Distinct(xs)
    modifies xs`queued, xs`frame
    ensures forall j :: 0 <= j < |xs| ==>
              xs[j].queued == [] && xs[j].frame == xs[j].rules.apply(old(xs[j].frame), old(xs[j].queued))
  {
    DistinctPairs(xs);
    for k := 0 to |xs|
      invariant forall j :: 0 <= j < k ==>
                  xs[j].queued == [] && xs[j].frame == xs[j].rules.apply(old(xs[j].frame), old(xs[j].queued))
      invariant forall j :: k <= j < |xs| ==> xs[j].queued == old(xs[j].queued) && xs[j].frame == old(xs[j].frame)
    {
      xs[k].ApplyAccumulatedInputs();
    }
  }

  /** `getMouseInput`: the clicked cell, provided the mouse key is triggered
      and the cell is in bounds; otherwise nothing. */
  function MouseInput(f: Frame, inBounds: (int, int) -> bool): (r: Option<Cell>)
    ensures r.Some? <==> f.mouseTriggered && inBounds(f.mouse.x, f.mouse.y)
    ensures r.Some? ==> r.value == f.mouse
  {
    if !f.mouseTriggered then None
    else if inBounds(f.mouse.x, f.mouse.y) then Some(f.mouse)
    else None
  }

  /** The tick states of a list of buffers, in order. */
  function Frames(xs: seq<Inputs>): (r: seq<Frame>)
    reads xs
    ensures |r| == |xs|
    ensures forall i :: 0 <= i < |xs| ==> r[i] == xs[i].frame
    decreases |xs|
  {
    if xs == [] then [] else [xs[0].frame] + Frames(xs[1..])
  }
}
