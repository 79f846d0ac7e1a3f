/** Where the blinds go: the number of blinds a view holds, the position of each blind,
    and the sequence of blinds a `for (i = from; i < numberOfBlinds(); i++)` loop places. */
module Layout {

  /** `blindsHeight`: the height of one blind, in view units. */
  const BlindsHeight: real := 50.0

  datatype Point = Point(x: real, y: real)

  /** The pivot every placed blind gets: its own top-left corner. */
  const TopLeft: Point := Point(0.0, 0.0)

  /** What `instantiateBlind` leaves on the canvas: blind `index`, placed at `position`
      with its pivot set to `pivot`. */
  datatype Placement = Placement(index: nat, position: Point, pivot: Point)

  /** `numberOfBlinds()`: how many blinds of `BlindsHeight` fit the view height; it is
      fractional when the height is not a multiple of `BlindsHeight`. */
  function NumberOfBlinds(viewHeight: real): (n: real)
    ensures n * BlindsHeight == viewHeight
    ensures viewHeight > 0.0 <==> n > 0.0
  {
    viewHeight / BlindsHeight
  }

  /** The loop guard `blindIndex < numberOfBlinds()`. */
  predicate BelowBlindCount(blindIndex: nat, numberOfBlinds: real)
  {
    (blindIndex as real) < numberOfBlinds
  }

  /** The first index at which the guard `blindIndex < numberOfBlinds` fails, i.e. the
      ceiling of a positive `numberOfBlinds`, and 0 when it is not positive. */
  function RequiredBlinds(numberOfBlinds: real): (count: nat)
    ensures forall i: nat :: i < count <==> BelowBlindCount(i, numberOfBlinds)
  {
    if numberOfBlinds <= 0.0 then 0
    else if numberOfBlinds.Floor as real == numberOfBlinds then numberOfBlinds.Floor
    else numberOfBlinds.Floor + 1
  }

  /** `positionOfBlindInstance`: blind `blindIndex` of `numberOfBlinds` equal slices of
      the view height, at the left edge. */
  function PositionOfBlindInstance(blindIndex: nat, viewHeight: real, numberOfBlinds: real): (p: Point)
    requires numberOfBlinds != 0.0
    ensures p.x == 0.0
    ensures p.y * numberOfBlinds == (blindIndex as real) * viewHeight
  {
    Point(0.0, (blindIndex as real) * viewHeight / numberOfBlinds)
  }

  /** With the number of blinds the view height gives, blind `i` sits `i` blind heights
      below the top, whatever the view height is. */
  lemma PositionIsSlatPitch(blindIndex: nat, viewHeight: real)
    requires viewHeight != 0.0
    ensures PositionOfBlindInstance(blindIndex, viewHeight, NumberOfBlinds(viewHeight))
         == Point(0.0, BlindsHeight * blindIndex as real)
  {
  }

  /** `instantiateBlind`: places blind `blindIndex` at its position and anchors it at its
      own top-left corner. */
  function InstantiateBlind(blindIndex: nat, viewHeight: real, numberOfBlinds: real): (p: Placement)
    requires numberOfBlinds != 0.0
    ensures p.index == blindIndex && p.pivot == TopLeft
    ensures numberOfBlinds == NumberOfBlinds(viewHeight) ==>
              p.position == Point(0.0, BlindsHeight * blindIndex as real)
  {
    var position := PositionOfBlindInstance(blindIndex, viewHeight, numberOfBlinds);
    assert numberOfBlinds == NumberOfBlinds(viewHeight) ==>
             position == Point(0.0, BlindsHeight * blindIndex as real) by {
      if numberOfBlinds == NumberOfBlinds(viewHeight) {
        PositionIsSlatPitch(blindIndex, viewHeight);
      }
    }
    Placement(blindIndex, position, TopLeft)
  }

  /** The blinds a loop `for (i = first; i < limit; i++)` instantiates for the current view
      height, in the order it places them. */
  function Placements(first: nat, limit: nat, viewHeight: real): (ps: seq<Placement>)
    requires limit <= first || viewHeight != 0.0
    ensures |ps| == if first <= limit then limit - first else 0
    decreases limit
  {
    if limit <= first then []
    else Placements(first, limit - 1, viewHeight) + [InstantiateBlind(limit - 1, viewHeight, NumberOfBlinds(viewHeight))]
  }

  /** The blind a list holds at index `i` is blind `i`, at its slat position, anchored at
      its top-left corner. */
  predicate WellPlaced(instances: seq<Placement>)
  {
    forall i | 0 <= i < |instances| :: instances[i] == Placement(i, Point(0.0, BlindsHeight * i as real), TopLeft)
  }

  /** Entry `k` of the placements that start at `first` is blind `first + k`, at its slat position. */
  lemma {:induction false} PlacementAt(first: nat, limit: nat, viewHeight: real, k: nat)
    requires limit <= first || viewHeight != 0.0
    requires k < |Placements(first, limit, viewHeight)|
    ensures Placements(first, limit, viewHeight)[k]
         == Placement(first + k, Point(0.0, BlindsHeight * (first + k) as real), TopLeft)
    decreases limit
  {
    if first + k + 1 < limit {
      PlacementAt(first, limit - 1, viewHeight, k);
    }
  }

  /** Appending the blinds `first .. limit - 1` to a well-placed list of `first` blinds keeps it
      well placed. */
  lemma ExtendWellPlaced(prefix: seq<Placement>, limit: nat, viewHeight: real)
    requires limit <= |prefix| || viewHeight != 0.0
    requires WellPlaced(prefix)
    ensures WellPlaced(prefix + Placements(|prefix|, limit, viewHeight))
  {
    var added := Placements(|prefix|, limit, viewHeight);
    forall i | |prefix| <= i < |prefix| + |added|
      ensures (prefix + added)[i] == Placement(i, Point(0.0, BlindsHeight * i as real), TopLeft)
    {
      PlacementAt(|prefix|, limit, viewHeight, i - |prefix|);
    }
  }
}
