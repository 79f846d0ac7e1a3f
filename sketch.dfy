/** `setup`: the shared blind definition, the blinds placed from it down the view, the
    blinds tool, and the resize handler that places the blinds a taller view needs. */
module Sketch {
  import opened Layout
  import opened Tool

  /** `array[i] = v` on a JavaScript array that has no holes up to `i`: it overwrites
      entry `i`, or appends when `i` is the length. */
  function ArraySet<T>(a: seq<T>, i: nat, v: T): (r: seq<T>)
    requires i <= |a|
    ensures |r| == if i == |a| then |a| + 1 else |a|
    ensures r[i] == v
    ensures forall j | 0 <= j < |a| && j != i :: r[j] == a[j]
  {
    if i == |a| then a + [v] else a[i := v]
  }

  /** The loop of `setup` that places blinds `0, 1, ...` while the index is below
      `numberOfBlinds()`. `instantiateBlind` returns nothing, so each entry it pushes
      onto `blindsInstances` is `undefined` (here `()`); the blinds themselves are the
      symbol items it places on the canvas, returned as `placed`. */
  method PlaceBlinds(viewHeight: real) returns (placed: seq<Placement>, blindsInstances: seq<()>)
    ensures placed == Placements(0, RequiredBlinds(NumberOfBlinds(viewHeight)), viewHeight)
    ensures |placed| == |blindsInstances| == RequiredBlinds(NumberOfBlinds(viewHeight))
    ensures WellPlaced(placed)
  {
    placed, blindsInstances := [], [];
    var blindIndex: nat := 0;
    while (blindIndex as real) < NumberOfBlinds(viewHeight)
      invariant blindIndex <= RequiredBlinds(NumberOfBlinds(viewHeight))
      invariant blindIndex == 0 || viewHeight > 0.0
      invariant placed == Placements(0, blindIndex, viewHeight)
      invariant |blindsInstances| == blindIndex
      decreases RequiredBlinds(NumberOfBlinds(viewHeight)) - blindIndex
    {
      var instance := InstantiateBlind(blindIndex, viewHeight, NumberOfBlinds(viewHeight));
      placed := placed + [instance];
      blindsInstances := blindsInstances + [()];
      blindIndex := blindIndex + 1;
    }
    ExtendWellPlaced([], blindIndex, viewHeight);
    assert [] + placed == placed;
  }

  /** The state `setup` leaves behind: the shared definition, the tool that scales it,
      the symbol items placed on the canvas and the array of references to them. */
  class Blinds {
    const definition: DefinitionItem
    const tool: BlindsTool
    /** The blinds placed on the canvas, in the order they were placed. */
    var canvas: seq<Placement>
    /** `blindsInstances`: one `undefined` entry per blind placed. */
    var blindsInstances: seq<()>

    /** One array entry per placed blind, blind `i` at its slat position, and the tool
        scaling the shared definition from the moves it has handled. */
    ghost predicate Valid()
      reads this, tool, definition
    {
      && tool.item == definition
      && tool.Valid()
      && |blindsInstances| == |canvas|
      && WellPlaced(canvas)
    }

    /** `setup(paper)` for a view of the given size. */
    constructor Setup(viewWidth: real, viewHeight: real)
      ensures Valid() && fresh(definition) && fresh(tool)
      ensures definition.width == viewWidth
      ensures canvas == Placements(0, RequiredBlinds(NumberOfBlinds(viewHeight)), viewHeight)
      ensures tool.State() == Initial() && tool.history == []
    {
      var item := new DefinitionItem(viewWidth);
      definition := item;
      var placed, instances := PlaceBlinds(viewHeight);
      canvas, blindsInstances := placed, instances;
      tool := new BlindsTool(item);
    }

    /** `paper.view.onResize`: the definition takes the new width, and when the view now
        needs more blinds than the array holds, blinds `|blindsInstances|` up to the new
        count are placed and recorded. Nothing placed before is moved or dropped. */
    method OnResize(viewWidth: real, viewHeight: real)
      requires Valid()
      modifies this, definition
      ensures Valid() && definition.width == viewWidth
      ensures definition.State() == old(definition.State())
      ensures canvas == old(canvas) + Placements(|old(canvas)|, RequiredBlinds(NumberOfBlinds(viewHeight)), viewHeight)
      ensures old(canvas) <= canvas && old(blindsInstances) <= blindsInstances
      ensures |canvas| == if |old(canvas)| < RequiredBlinds(NumberOfBlinds(viewHeight))
                          then RequiredBlinds(NumberOfBlinds(viewHeight)) else |old(canvas)|
    {
      ghost var toolState := tool.State();
      definition.width := viewWidth;
      if (|blindsInstances| as real) < NumberOfBlinds(viewHeight) {
        var blindIndex: nat := |blindsInstances|;
        while (blindIndex as real) < NumberOfBlinds(viewHeight)
          invariant |old(canvas)| <= blindIndex <= RequiredBlinds(NumberOfBlinds(viewHeight))
          invariant viewHeight > 0.0
          invariant definition.width == viewWidth && tool.State() == toolState
          invariant canvas == old(canvas) + Placements(|old(canvas)|, blindIndex, viewHeight)
          invariant blindsInstances == old(blindsInstances) + seq(blindIndex - |old(canvas)|, _ => ())
          invariant |blindsInstances| == blindIndex
          decreases RequiredBlinds(NumberOfBlinds(viewHeight)) - blindIndex
        {
          var instance := InstantiateBlind(blindIndex, viewHeight, NumberOfBlinds(viewHeight));
          canvas := canvas + [instance];
          blindsInstances := ArraySet(blindsInstances, blindIndex, ());
          blindIndex := blindIndex + 1;
        }
      }
      ExtendWellPlaced(old(canvas), |canvas|, viewHeight);
      assert tool.State() == toolState;
    }

    /** A mouse move delivered to the active tool: the tool and the definition follow
        `Move`, the move joins the tool's history, and the definition's width and the
        placed blinds stay as they are. */
    method HandleMouseMove(e: MouseMove)
      requires Valid() && e.viewHeight > 0.0
      modifies tool, definition
      ensures Valid() && canvas == old(canvas)
      ensures tool.State() == Move(old(tool.State()), e)
      ensures tool.history == old(tool.history) + [e]
      ensures definition.width == old(definition.width)
    {
      tool.OnMouseMove(e);
    }
  }
}
