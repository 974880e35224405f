/** Screen-space arithmetic of the drag controller, the item factory and the
    split effect. Positions are whole CSS pixels. */
module Geometry {
  /** `Math.max`. */
  function Max(a: int, b: int): int {
    if a < b then b else a
  }

  /** `Math.min`. */
  function Min(a: int, b: int): int {
    if a < b then a else b
  }

  /** `Math.max(0, Math.min(v, hi))`: the clamp applied on each axis after a
      drag, where `hi` is the viewport dimension minus the item's size. */
  function Clamp(v: int, hi: int): (r: int)
    ensures 0 <= r
    ensures 0 <= hi ==> r <= hi
    ensures 0 <= v <= hi ==> r == v
    ensures v < 0 || hi < 0 ==> r == 0
    ensures 0 <= hi < v ==> r == hi
  {
    Max(0, Min(v, hi))
  }

  /** Clamping twice is clamping once. */
  lemma ClampIdempotent(v: int, hi: int)
    ensures Clamp(Clamp(v, hi), hi) == Clamp(v, hi)
  {
  }

  /** Clamping keeps the order of positions. */
  lemma ClampMonotonic(v: int, w: int, hi: int)
    requires v <= w
    ensures Clamp(v, hi) <= Clamp(w, hi)
  {
  }

  /** The nominal item footprint the item factory subtracts from the container. */
  const ItemFootprint: int := 200

  /** `x` is a value `Math.random() * span` can produce, in whole pixels: in
      `[0, span)` for a positive span, `0` for an empty one, and in `(span, 0]`
      when the container is narrower than the footprint. */
  predicate SpawnChoice(x: int, span: int) {
    if span > 0 then 0 <= x < span
    else if span == 0 then x == 0
    else span < x <= 0
  }

  /** When the container is at least one footprint wide, a spawned item lies
      entirely inside it; when it is narrower, the item starts left of (or at)
      the container's edge, by less than the shortfall. */
  lemma SpawnInsideContainer(x: int, width: int)
    requires SpawnChoice(x, width - ItemFootprint)
    ensures width >= ItemFootprint ==> 0 <= x && x + ItemFootprint <= width
    ensures width < ItemFootprint ==> width - ItemFootprint < x <= 0
  {
  }

  /** `(360 / count) * i`: the direction in degrees of clone `i` of a split. */
  function SplitAngle(count: nat, i: nat): real
    requires count > 0
  {
    (360.0 / count as real) * i as real
  }

  /** The clones of a split point in directions that lie within one turn and are
      spaced exactly `360 / count` degrees apart. */
  lemma SplitAnglesEven(count: nat, i: nat)
    requires i < count
    ensures 0.0 <= SplitAngle(count, i) < 360.0
    ensures i + 1 < count ==> SplitAngle(count, i + 1) - SplitAngle(count, i) == 360.0 / count as real
  {
  }

  /** A drag moves the item's corner to `pointer - offset`, where the offset was
      captured at the grab as pointer minus corner. Whenever that target lies
      inside the allowed range, the item moves by exactly the pointer's
      displacement, so the grabbed point stays under the pointer. */
  lemma DragFollowsPointer(corner: int, grab: int, pointer: int, viewport: int, size: int)
    requires 0 <= corner + (pointer - grab) <= viewport - size
    ensures Clamp(pointer - (grab - corner), viewport - size) == corner + (pointer - grab)
  {
  }
}
