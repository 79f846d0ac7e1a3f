/** The pure helpers at the end of sketch.js: `clamp` and `insertItemIntoIndexedMap`. */
module Utilities {

  /** The `{ min, max }` object that `clamp` destructures. */
  datatype Bounds = Bounds(min: real, max: real)

  /** `Math.max(min, Math.min(max, n))`: never below `min`, never above `max` when the
      bounds are ordered, `n` itself when it already lies between them, and exactly the
      bound it crossed otherwise. */
  function Clamp(n: real, bounds: Bounds): (r: real)
    ensures bounds.min <= r
    ensures bounds.min <= bounds.max ==> r <= bounds.max
    ensures bounds.min <= n <= bounds.max ==> r == n
    ensures n < bounds.min ==> r == bounds.min
    ensures bounds.min <= bounds.max < n ==> r == bounds.max
    ensures bounds.max < bounds.min ==> r == bounds.min
  {
    var upper := if n < bounds.max then n else bounds.max;
    if upper < bounds.min then bounds.min else upper
  }

  /** Clamping preserves order, so a larger input never gives a smaller result. */
  lemma ClampMonotone(n: real, m: real, bounds: Bounds)
    requires n <= m
    ensures Clamp(n, bounds) <= Clamp(m, bounds)
  {
  }

  /** Clamping a value that is already clamped changes nothing. */
  lemma ClampIdempotent(n: real, bounds: Bounds)
    ensures Clamp(Clamp(n, bounds), bounds) == Clamp(n, bounds)
  {
  }

  /** An item that carries its own identifier, as a Paper.js item carries `id`. */
  datatype Item<T> = Item(id: int, payload: T)

  /** Every key of an indexed map names the item stored under it. */
  predicate IsIndexedMap<T>(m: map<int, Item<T>>)
  {
    forall k :: k in m ==> m[k].id == k
  }

  /** `Object.assign({}, indexedMap, { [item.id]: item })`: a new map with every entry of
      `indexedMap`, except that `item` is now stored under its own id. */
  function InsertItemIntoIndexedMap<T>(indexedMap: map<int, Item<T>>, item: Item<T>): (r: map<int, Item<T>>)
    ensures r.Keys == indexedMap.Keys + {item.id}
    ensures item.id in r && r[item.id] == item
    ensures forall k :: k in indexedMap && k != item.id ==> k in r && r[k] == indexedMap[k]
    ensures IsIndexedMap(indexedMap) ==> IsIndexedMap(r)
  {
    indexedMap[item.id := item]
  }

  /** Inserting the same item twice is the same as inserting it once. */
  lemma InsertIdempotent<T>(indexedMap: map<int, Item<T>>, item: Item<T>)
    ensures InsertItemIntoIndexedMap(InsertItemIntoIndexedMap(indexedMap, item), item)
         == InsertItemIntoIndexedMap(indexedMap, item)
  {
  }
}
