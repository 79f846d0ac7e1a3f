# Blinds: a model of the window-blinds sketch

`sketch.js` draws a set of horizontal window blinds on a Paper.js canvas. All blinds are
instances of one shared symbol definition, so scaling that one definition item opens or
closes every blind at once. Moving the mouse up closes the blinds and moving it down opens
them. When the window grows taller, more blinds are placed.

This project models the logic of that file in Dafny and proves what it promises:

- `Utilities` holds the two pure helpers, `clamp` and `insertItemIntoIndexedMap`.
- `Layout` holds the blind geometry: `numberOfBlinds`, `positionOfBlindInstance`, and
  what `instantiateBlind` places. It also defines the exact index range a loop
  `for (i = first; i < numberOfBlinds(); i++)` visits when the number of blinds is
  fractional.
- `Tool` holds the tool that `makeBlindsTool` returns.
  - `Move` and `Run` are pure functions for one mouse move and for a sequence of moves.
    The lemmas about them cover the progress bounds, the direction of change, the
    visibility rule, and the telescoping of the relative scale factors.
  - The classes `DefinitionItem` and `BlindsTool` are the objects that `onMouseMove`
    updates in place. `BlindsTool.OnMouseMove` is proved to follow `Move`.
- `Sketch` holds what `setup` builds: the setup loop that places the blinds, and the
  resize handler that places the extra blinds a taller view needs.

`instantiateBlind` has no `return` statement, so every entry that `setup` and
`onResize` store in `blindsInstances` is `undefined`. The model keeps that array as a
sequence of `()` values. It records the blinds themselves as the placements on the
canvas (`Blinds.canvas`), which is where `instantiateBlind` leaves them. Only the length
of `blindsInstances` is ever read, and the model proves that it always equals the number
of blinds placed.

The model does not assume the item starts in sync with the progress value. The tool
starts with progress 0.001 and `lastScaleFactor` 1. So the first move applies a relative
factor of `progress / 1`, and a first move with no vertical motion shrinks the item to
0.001 and hides it (`Tool.FirstStillMoveHides`). After any first move, `lastScaleFactor`
equals the progress.

## Model

| member | source | states |
|---|---|---|
| Utilities.Clamp | sketch.js:117-119 | The result is never below `min`. It is never above `max` when `min <= max`. It is `n` itself when `n` already lies in range. Otherwise it is exactly the bound that `n` crossed, and `min` wins when the bounds are inverted. |
| Utilities.ClampMonotone | sketch.js:117-119 | A larger input never gives a smaller clamped value. |
| Utilities.ClampIdempotent | sketch.js:117-119 | Clamping an already clamped value changes nothing. |
| Utilities.InsertItemIntoIndexedMap | sketch.js:113-115 | The new map has the old keys plus the item's id, maps that id to the item, keeps every other entry, and stays an indexed map (each key names its own item). |
| Utilities.InsertIdempotent | sketch.js:113-115 | Inserting the same item twice gives the same map as inserting it once. |
| Layout.NumberOfBlinds | sketch.js:6-10 | The count times the blind height (50) is the view height, and the count is positive exactly when the view height is. |
| Layout.RequiredBlinds | sketch.js:33 | An index is below the number of blinds exactly when it is below this count. So a loop from 0 visits indices 0 up to the ceiling of a fractional count, minus one. |
| Layout.PositionOfBlindInstance | sketch.js:121-123 | The blind sits at x = 0, and its y times the number of blinds is its index times the view height, i.e. y = i·h/n. |
| Layout.PositionIsSlatPitch | sketch.js:121-123 | With the number of blinds the view height gives, blind `i` sits at (0, 50·i) for every nonzero view height. |
| Layout.InstantiateBlind | sketch.js:102-108 | The placement carries the blind's index, is anchored at its top-left corner (0, 0), and sits at (0, 50·i) when placed with the view's own number of blinds. |
| Layout.Placements | sketch.js:33-53 | The loop from `first` to `limit` places exactly `limit - first` blinds, and none when `limit <= first`. |
| Layout.PlacementAt | sketch.js:33-53 | The k-th blind that loop places is blind `first + k`, at (0, 50·(first + k)) and anchored at (0, 0). |
| Layout.ExtendWellPlaced | sketch.js:50-54 | Appending the blinds `|prefix|` up to `limit` to a list in which blind `i` sits at index `i` in its slot keeps that property. |
| Tool.Delta | sketch.js:74 | Moving the pointer up (negative `delta.y`) asks for more progress, moving it down asks for less, and not moving asks for no change. |
| Tool.DeltaProportional | sketch.js:74 | The change times the view height is `-5 · delta.y`, so a drag over the whole view height changes progress by 5. |
| Tool.Move | sketch.js:73-96 | After any move, progress lies in [0.001, 1.01] and `lastScaleFactor` equals it. The item is hidden when the new factor is 0.001 and shown again when the factor leaves 0.001. Otherwise its visibility is untouched. |
| Tool.Run | sketch.js:73-96 | After one or more moves, progress is in [0.001, 1.01] and `lastScaleFactor` equals it. No moves change nothing. |
| Tool.InitialInv | sketch.js:64-71 | The starting state keeps the tool invariant: progress in range, item scale equal to `lastScaleFactor`, item visible exactly when that factor exceeds 0.001. It is not yet synced (1 ≠ 0.001). |
| Tool.MovePreservesInv | sketch.js:79-95 | One move keeps that invariant. |
| Tool.RunPreservesInv | sketch.js:79-95 | Any sequence of moves keeps that invariant. |
| Tool.RunAppend | sketch.js:73-96 | Handling one more move after a sequence is one `Move` from where the sequence ended. |
| Tool.LastFactors | sketch.js:71-95 | The `lastScaleFactor` values before and after each move run from the starting one to the final one, and none is zero. |
| Tool.AppliedScales | sketch.js:66-83 | There is one relative factor `newScaleFactor / lastScaleFactor` per move. |
| Tool.RatiosTelescope | sketch.js:66-70 | Scaling the first of a list of nonzero values by the ratio of each value to the one before it, in turn, gives the last value. |
| Tool.ScaleTelescopes | sketch.js:71-95 | From any state, scaling the starting `lastScaleFactor` by every relative factor the moves applied, in order, gives the final `lastScaleFactor`. |
| Tool.RunFromInitial | sketch.js:64-95 | After any moves from the start: progress is in range, the item's scale is 1 scaled by every relative factor applied (their product) and equals `lastScaleFactor`, and the item is visible exactly when that factor exceeds 0.001. |
| Tool.MoveFollowsPointer | sketch.js:74-79 | A move with `delta.y <= 0` never lowers progress, and one with `delta.y >= 0` never raises it. |
| Tool.RunFollowsPointer | sketch.js:74-79 | The same holds for a whole sequence of moves that all go the same way. |
| Tool.StillMoveChangesNothing | sketch.js:74-95 | Once synced, a move without vertical motion leaves progress, `lastScaleFactor`, the item's scale and its visibility as they were. |
| Tool.StillMovesChangeNothing | sketch.js:74-95 | Any number of such moves changes nothing. |
| Tool.FirstStillMoveHides | sketch.js:64-88 | A first move without vertical motion scales the item down to 0.001 and hides it. |
| Tool.DefinitionItem.constructor | sketch.js:19-29 | A new definition item has the given width, scale 1 and is shown. |
| Tool.DefinitionItem.ScaleVertically | sketch.js:83 | `scale(1, sy)` multiplies the vertical scale by `sy` and leaves width and visibility. |
| Tool.BlindsTool.constructor | sketch.js:59-71 | A new tool holds the initial progress 0.001 and `lastScaleFactor` 1 for the given item, and is consistent with having handled no moves. |
| Tool.BlindsTool.OnMouseMove | sketch.js:73-96 | The handler changes the tool and the item exactly as `Move` says. It keeps them equal to running every handled move from the start, keeps the tool invariant, and leaves the item's width. |
| Tool.BlindsTool.Step | sketch.js:73-96 | The handler's body changes progress, `lastScaleFactor` and the item exactly as `Move` says, given a nonzero last scale factor. It leaves the item's width alone. |
| Sketch.ArraySet | sketch.js:52 | Assigning entry `i` of an array with no holes up to `i` overwrites that entry, or appends it when `i` is the length. Every other entry stays. |
| Sketch.PlaceBlinds | sketch.js:32-40 | The setup loop places blinds 0 up to the ceiling of the number of blinds, minus one, each in its slot. It pushes exactly one array entry per blind. |
| Sketch.Blinds.Setup | sketch.js:12-45 | Setup gives a definition item as wide as the view and places the blinds the view needs, one array entry each. It starts the tool in its initial state (progress 0.001, `lastScaleFactor` 1) on that item, with no moves handled. |
| Sketch.Blinds.OnResize | sketch.js:48-55 | The definition takes the new width and its scale and visibility stay. Blinds already placed are never moved or dropped. When the view needs more blinds than the array holds, exactly the blinds from the old length up to the new count are appended, in order. Otherwise nothing is placed. |
| Sketch.Blinds.HandleMouseMove | sketch.js:43-96 | A mouse move delivered to the active tool changes the tool as `Move` says and adds the move to its history. It leaves the definition's width and the placed blinds alone. |

## Left out

- The DOM and canvas setup (`window.onload`, `getElementById`, `paper.setup`) is browser I/O. So are the view's size and the mouse motion, which enter the model as parameters.
- Paper.js drawing is not modelled: the fill colour, the rectangle path, the symbol definition, `place` and `pivot`. A placed blind is the record of its index, position and pivot.
- The item's horizontal scale is not modelled. The width assignment in `onResize` is a plain field update, although Paper.js rescales the item to get that width.
- `tool.activate()` and `paper.tools.push` are not modelled. Event dispatch is `Blinds.HandleMouseMove`, and handlers run one at a time in the order they are called.
- Tool.Move: requires a positive view height, because with height 0 `delta` is an IEEE infinity or NaN, which `real` cannot represent. The same holds for Tool.Delta, Tool.Run and Tool.BlindsTool.OnMouseMove.
- Layout.PositionOfBlindInstance: requires a nonzero number of blinds for the same reason. The loops call it only while the index is below a positive count.
- IEEE-754 rounding is not modelled: progress and scales are exact reals. The `=== 0.001` tests in `onMouseMove` are exact in the source too, because `clamp` returns the literal bound.
- Utilities.InsertItemIntoIndexedMap: the object keys are integers, not the strings JavaScript makes of the ids.
- `insertItemIntoIndexedMap` is defined but never called in `sketch.js`, so nothing else in the model uses it.
- `sketch.js` has no cyclic (wrap-around) progress, no deferred activation of the tool and no guard that keeps at least one slat: progress is clamped, the tool is activated in `setup`, and the number of blinds is only the view height divided by 50, with no lower bound. The model has none of them either.
