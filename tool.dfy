/** The blinds tool of `makeBlindsTool`: mouse moves drive a clamped progress value,
    which is applied as a relative vertical scale to the shared blind definition, and
    the definition is hidden at the minimum scale and shown again when it leaves it.

    The pure part (`Move`, `Run` and the lemmas about them) specifies one mouse move and
    a sequence of them; the classes `DefinitionItem` and `BlindsTool` are the objects the
    source updates in place, and their methods are proved against `Move`. */
module Tool {
  import opened Utilities

  /** The gain applied to the pointer's vertical motion. */
  const Sensitivity: real := 5.0

  /** The lowest progress: scaling to 0 could not be undone. */
  const MinScale: real := 0.001

  /** The highest progress: a little over 1 closes the gaps between closed blinds. */
  const MaxScale: real := 1.01

  const ProgressBounds: Bounds := Bounds(MinScale, MaxScale)

  /** `blindsProgress` before the first move. */
  const InitialProgress: real := 0.001

  /** `tool.lastScaleFactor` before the first move. */
  const InitialScaleFactor: real := 1.0

  /** The two properties of the shared definition item the tool changes: its accumulated
      vertical scale and whether it is shown. */
  datatype ItemState = ItemState(verticalScale: real, visible: bool)

  /** The tool's closure state together with the state of the item it scales. */
  datatype ToolState = ToolState(progress: real, lastScaleFactor: real, item: ItemState)

  /** One `mousemove` event: the pointer's vertical motion `event.delta.y` and the view
      height at that moment. */
  datatype MouseMove = MouseMove(deltaY: real, viewHeight: real)

  /** A freshly made tool beside a freshly made, unscaled and visible definition item. */
  function Initial(): ToolState
  {
    ToolState(InitialProgress, InitialScaleFactor, ItemState(1.0, true))
  }

  predicate InRange(progress: real)
  {
    MinScale <= progress <= MaxScale
  }

  /** The last applied scale factor is the current progress (true after any move). */
  predicate Synced(s: ToolState)
  {
    s.lastScaleFactor == s.progress
  }

  predicate ValidMoves(moves: seq<MouseMove>)
  {
    forall i | 0 <= i < |moves| :: moves[i].viewHeight > 0.0
  }

  /** The change in progress a move asks for: moving the pointer up (negative `deltaY`)
      raises progress, moving it down lowers it, and not moving leaves it. */
  function Delta(e: MouseMove): (d: real)
    requires e.viewHeight > 0.0
    ensures e.deltaY < 0.0 <==> d > 0.0
    ensures e.deltaY > 0.0 <==> d < 0.0
  {
    Sensitivity * -e.deltaY / e.viewHeight
  }

  /** The change in progress is proportional to the pointer's motion and inversely
      proportional to the view height: a drag over the whole height moves progress by
      `Sensitivity`. */
  lemma DeltaProportional(e: MouseMove)
    requires e.viewHeight > 0.0
    ensures Delta(e) * e.viewHeight == -Sensitivity * e.deltaY
  {
  }

  /** The effect of one `onMouseMove` on the tool and its item. */
  function Move(s: ToolState, e: MouseMove): (r: ToolState)
    requires e.viewHeight > 0.0 && s.lastScaleFactor != 0.0
    ensures InRange(r.progress) && Synced(r)
    // hidden whenever the new factor is the minimum ...
    ensures r.lastScaleFactor == MinScale ==> !r.item.visible
    // ... shown again when leaving the minimum ...
    ensures s.lastScaleFactor == MinScale < r.lastScaleFactor ==> r.item.visible
    // ... and otherwise untouched
    ensures s.lastScaleFactor != MinScale && r.lastScaleFactor != MinScale ==> r.item.visible == s.item.visible
  {
    var progress := Clamp(s.progress + Delta(e), ProgressBounds);
    var newScaleFactor := progress;
    var visible :=
      if newScaleFactor == MinScale then false
      else if newScaleFactor > MinScale && s.lastScaleFactor == MinScale then true
      else s.item.visible;
    ToolState(progress, newScaleFactor,
              ItemState(s.item.verticalScale * (newScaleFactor / s.lastScaleFactor), visible))
  }

  /** The effect of a sequence of mouse moves, in delivery order. */
  function Run(s: ToolState, moves: seq<MouseMove>): (r: ToolState)
    requires s.lastScaleFactor != 0.0 && ValidMoves(moves)
    ensures moves != [] ==> InRange(r.progress) && Synced(r)
    ensures moves == [] ==> r == s
    decreases |moves|
  {
    if moves == [] then s else Run(Move(s, moves[0]), moves[1..])
  }

  /** A scale after the relative `factors` are applied to it in turn, as successive
      `item.scale(1, f)` calls do; from 1 it is the product of the factors. */
  function ScaledBy(scale: real, factors: seq<real>): real
    decreases factors
  {
    if factors == [] then scale else ScaledBy(scale * factors[0], factors[1..])
  }

  /** What holds of the tool and its item before and after every move: progress in its
      bounds, the item's accumulated scale equal to the last factor, and the item visible
      exactly when that factor is above the minimum. */
  predicate Inv(s: ToolState)
  {
    && InRange(s.progress)
    && MinScale <= s.lastScaleFactor
    && s.item.verticalScale == s.lastScaleFactor
    && (s.item.visible <==> s.lastScaleFactor > MinScale)
  }

  lemma InitialInv()
    ensures Inv(Initial()) && !Synced(Initial())
  {
  }

  lemma MovePreservesInv(s: ToolState, e: MouseMove)
    requires Inv(s) && e.viewHeight > 0.0
    ensures Inv(Move(s, e))
  {
  }

  lemma {:induction false} RunPreservesInv(s: ToolState, moves: seq<MouseMove>)
    requires Inv(s) && ValidMoves(moves)
    ensures Inv(Run(s, moves))
    decreases |moves|
  {
    if moves != [] {
      MovePreservesInv(s, moves[0]);
      RunPreservesInv(Move(s, moves[0]), moves[1..]);
    }
  }

  /** Running one more move after a sequence is moving once from where the sequence ended. */
  lemma {:induction false} RunAppend(s: ToolState, moves: seq<MouseMove>, e: MouseMove)
    requires s.lastScaleFactor != 0.0 && ValidMoves(moves) && e.viewHeight > 0.0
    ensures ValidMoves(moves + [e])
    ensures Run(s, moves + [e]) == Move(Run(s, moves), e)
    decreases |moves|
  {
    if moves != [] {
      assert (moves + [e])[1..] == moves[1..] + [e];
      RunAppend(Move(s, moves[0]), moves[1..], e);
    }
  }

  /** The last scale factor before the moves and after each of them. */
  function LastFactors(s: ToolState, moves: seq<MouseMove>): (xs: seq<real>)
    requires s.lastScaleFactor != 0.0 && ValidMoves(moves)
    ensures |xs| == |moves| + 1 && xs[0] == s.lastScaleFactor
    ensures xs[|moves|] == Run(s, moves).lastScaleFactor
    ensures forall i | 0 <= i < |xs| :: xs[i] != 0.0
    decreases |moves|
  {
    if moves == [] then [s.lastScaleFactor]
    else [s.lastScaleFactor] + LastFactors(Move(s, moves[0]), moves[1..])
  }

  /** The ratio of each element of `xs` to the one before it. */
  function Ratios(xs: seq<real>): (rs: seq<real>)
    requires forall i | 0 <= i < |xs| :: xs[i] != 0.0
    ensures |rs| == if xs == [] then 0 else |xs| - 1
  {
    if |xs| <= 1 then [] else [xs[1] / xs[0]] + Ratios(xs[1..])
  }

  /** `rs` holds the ratios of successive elements of `xs`, a nonempty sequence of nonzero
      values that runs from `first` to `last`. */
  predicate RatiosBetween(xs: seq<real>, rs: seq<real>, first: real, last: real)
  {
    && |xs| >= 1
    && (forall i | 0 <= i < |xs| :: xs[i] != 0.0)
    && rs == Ratios(xs)
    && xs[0] == first && xs[|xs| - 1] == last
  }

  /** Successive ratios telescope: applying them in turn to the first element gives the
      last. */
  lemma {:induction false} RatiosTelescope(xs: seq<real>, rs: seq<real>, first: real, last: real)
    requires RatiosBetween(xs, rs, first, last)
    ensures ScaledBy(first, rs) == last
  {
    if |xs| == 1 {
      assert rs == [];
    } else {
      var next := xs[1];
      assert rs == [next / first] + Ratios(xs[1..]);
      assert first * rs[0] == next by {
        Cancel(first, next, rs[0]);
      }
      assert ScaledBy(first, rs) == ScaledBy(next, rs[1..]) by {
        ScaledByFirst(first, rs);
      }
      assert RatiosBetween(xs[1..], rs[1..], next, last);
      RatiosTelescope(xs[1..], rs[1..], next, last);
    }
  }

  /** Applying a nonempty list of factors applies the first one, then the rest. */
  lemma ScaledByFirst(scale: real, factors: seq<real>)
    requires factors != []
    ensures ScaledBy(scale, factors) == ScaledBy(scale * factors[0], factors[1..])
  {
  }

  /** Scaling `x` by `y / x` gives `y`. */
  lemma Cancel(x: real, y: real, r: real)
    requires x != 0.0 && r == y / x
    ensures x * r == y
  {
  }

  /** The relative factor `newScaleFactor / lastScaleFactor` each move passes to
      `item.scale`: the ratio of the last scale factor after it to the one before it. */
  function AppliedScales(s: ToolState, moves: seq<MouseMove>): (fs: seq<real>)
    requires s.lastScaleFactor != 0.0 && ValidMoves(moves)
    ensures |fs| == |moves|
  {
    Ratios(LastFactors(s, moves))
  }

  /** Applying the relative factors of the moves in turn to the starting last scale
      factor gives the final one. */
  lemma ScaleTelescopes(s: ToolState, moves: seq<MouseMove>)
    requires s.lastScaleFactor != 0.0 && ValidMoves(moves)
    ensures ScaledBy(s.lastScaleFactor, AppliedScales(s, moves)) == Run(s, moves).lastScaleFactor
  {
    var xs, rs := LastFactors(s, moves), AppliedScales(s, moves);
    var first, last := s.lastScaleFactor, Run(s, moves).lastScaleFactor;
    assert RatiosBetween(xs, rs, first, last);
    RatiosTelescope(xs, rs, first, last);
  }

  /** After any sequence of moves from the initial state: progress is in its bounds, the
      item's scale is 1 scaled by every relative factor applied (their product) and equals
      the last scale factor, and the item is visible exactly when that factor exceeds the
      minimum. */
  lemma RunFromInitial(moves: seq<MouseMove>)
    requires ValidMoves(moves)
    ensures var r := Run(Initial(), moves);
      && InRange(r.progress)
      && r.item.verticalScale == ScaledBy(1.0, AppliedScales(Initial(), moves)) == r.lastScaleFactor
      && (r.item.visible <==> r.lastScaleFactor > MinScale)
  {
    assert Inv(Run(Initial(), moves)) by {
      InitialInv();
      RunPreservesInv(Initial(), moves);
    }
    ScaleTelescopes(Initial(), moves);
  }

  /** Moving the pointer up never lowers progress; moving it down never raises it. */
  lemma MoveFollowsPointer(s: ToolState, e: MouseMove)
    requires InRange(s.progress) && e.viewHeight > 0.0 && s.lastScaleFactor != 0.0
    ensures e.deltaY <= 0.0 ==> Move(s, e).progress >= s.progress
    ensures e.deltaY >= 0.0 ==> Move(s, e).progress <= s.progress
  {
  }

  /** A run of moves that all go up never lowers progress; one that all go down never
      raises it. */
  lemma {:induction false} RunFollowsPointer(s: ToolState, moves: seq<MouseMove>)
    requires InRange(s.progress) && s.lastScaleFactor != 0.0 && ValidMoves(moves)
    ensures (forall i | 0 <= i < |moves| :: moves[i].deltaY <= 0.0) ==> Run(s, moves).progress >= s.progress
    ensures (forall i | 0 <= i < |moves| :: moves[i].deltaY >= 0.0) ==> Run(s, moves).progress <= s.progress
    decreases |moves|
  {
    if moves != [] {
      MoveFollowsPointer(s, moves[0]);
      RunFollowsPointer(Move(s, moves[0]), moves[1..]);
    }
  }

  /** Once the tool is synced (after its first move), a move without vertical motion
      changes nothing. */
  lemma StillMoveChangesNothing(s: ToolState, viewHeight: real)
    requires Inv(s) && Synced(s) && viewHeight > 0.0
    ensures Move(s, MouseMove(0.0, viewHeight)) == s
  {
  }

  lemma {:induction false} StillMovesChangeNothing(s: ToolState, moves: seq<MouseMove>)
    requires Inv(s) && Synced(s) && ValidMoves(moves)
    requires forall i | 0 <= i < |moves| :: moves[i].deltaY == 0.0
    ensures Run(s, moves) == s
    decreases |moves|
  {
    if moves != [] {
      assert moves[0] == MouseMove(0.0, moves[0].viewHeight);
      StillMoveChangesNothing(s, moves[0].viewHeight);
      StillMovesChangeNothing(s, moves[1..]);
    }
  }

  /** The first move is different: the tool starts with the item at full scale while
      progress is at the minimum, so even a move without vertical motion scales the item
      down to the minimum and hides it. */
  lemma FirstStillMoveHides(viewHeight: real)
    requires viewHeight > 0.0
    ensures var r := Move(Initial(), MouseMove(0.0, viewHeight));
      r.progress == MinScale && r.item == ItemState(MinScale, false)
  {
  }

  /** The shared symbol definition's item: its width, and the two properties the tool
      uses. */
  class DefinitionItem {
    var width: real
    var verticalScale: real
    var visible: bool

    function State(): ItemState
      reads this
    {
      ItemState(verticalScale, visible)
    }

    /** `makeBlindsPrototype(width, blindsHeight)`: a new item of the given width,
        unscaled and shown. */
    constructor (width: real)
      ensures this.width == width && State() == ItemState(1.0, true)
    {
      this.width, verticalScale, visible := width, 1.0, true;
    }

    /** `item.scale(1, sy)`: scales the item vertically by `sy` relative to its current
        scale, leaving its width and visibility. */
    method ScaleVertically(sy: real)
      modifies this
      ensures verticalScale == old(verticalScale) * sy
      ensures width == old(width) && visible == old(visible)
    {
      verticalScale := verticalScale * sy;
    }
  }

  /** The `paper.Tool` that `makeBlindsTool` returns, with the closure variable
      `blindsProgress` as a field. */
  class BlindsTool {
    var blindsProgress: real
    var lastScaleFactor: real
    const item: DefinitionItem
    /** Every mouse move handled so far, in order. */
    ghost var history: seq<MouseMove>

    function State(): ToolState
      reads this, item
    {
      ToolState(blindsProgress, lastScaleFactor, item.State())
    }

    /** The tool is where the moves it has handled lead from the initial state. */
    ghost predicate Valid()
      reads this, item
    {
      ValidMoves(history) && State() == Run(Initial(), history)
    }

    /** `makeBlindsTool(blindsSymbolDefinition)`, given the definition's fresh item. */
    constructor (definitionItem: DefinitionItem)
      requires definitionItem.State() == ItemState(1.0, true)
      ensures item == definitionItem && history == []
      ensures Valid() && State() == Initial()
    {
      blindsProgress := InitialProgress;
      lastScaleFactor := InitialScaleFactor;
      item := definitionItem;
      history := [];
    }

    /** `tool.onMouseMove`: the handler's own steps are `Step`; the ghost history records
        the move. */
    method OnMouseMove(e: MouseMove)
      requires Valid() && e.viewHeight > 0.0
      modifies this, item
      ensures Valid() && history == old(history) + [e]
      ensures State() == Move(old(State()), e)
      ensures Inv(State()) && item.width == old(item.width)
    {
      ghost var before := State();
      assert Inv(Move(before, e)) by {
        RunPreservesInv(Initial(), history);
        MovePreservesInv(before, e);
      }
      assert Run(Initial(), history + [e]) == Move(before, e) by {
        RunAppend(Initial(), history, e);
      }
      Step(e);
      history := history + [e];
    }

    /** The body of `tool.onMouseMove`: clamps the new progress, scales the item by the
        relative factor, hides or shows it, and records the new scale factor. */
    method Step(e: MouseMove)
      requires e.viewHeight > 0.0 && lastScaleFactor != 0.0
      modifies this, item
      ensures State() == Move(old(State()), e)
      ensures history == old(history) && item.width == old(item.width)
    {
      var delta := Delta(e);
      blindsProgress := Clamp(blindsProgress + delta, ProgressBounds);
      var newScaleFactor := blindsProgress;
      item.ScaleVertically(newScaleFactor / lastScaleFactor);
      if newScaleFactor == MinScale {
        item.visible := false;
      }
      if newScaleFactor > MinScale && lastScaleFactor == MinScale {
        item.visible := true;
      }
      lastScaleFactor := newScaleFactor;
    }
  }
}
