/**
 * The coordinate arithmetic shared by the two PiP drag widgets and by the
 * in-game PiP setup: points, the clamp `max(lo, min(x, hi))`, the hit box of
 * a sprite grown by a margin, the four screen corners, and normalisation
 * of a position by its container size.
 *
 * Coordinates are `real`: the source's `float` rounding is not modelled.
 */
module Geometry {
  import opened Wrappers

  datatype Point = Point(x: real, y: real) {
    function Add(o: Point): Point { Point(x + o.x, y + o.y) }
    function Sub(o: Point): Point { Point(x - o.x, y - o.y) }
  }

  /** A width and a height (`CCSize`). */
  datatype Size = Size(width: real, height: real)

  /** A size both of whose sides are positive, as the window and a decoded texture are. */
  predicate IsPositive(s: Size) {
    s.width > 0.0 && s.height > 0.0
  }

  function Max(a: real, b: real): real { if a >= b then a else b }
  function Min(a: real, b: real): real { if a <= b then a else b }
  function Abs(a: real): real { if a >= 0.0 then a else -a }

  /** `std::max(lo, std::min(x, hi))`: the lower bound wins when the interval is empty. */
  function Clamp(lo: real, x: real, hi: real): (r: real)
    ensures lo <= r
    ensures lo <= hi ==> r <= hi
    ensures lo <= x <= hi ==> r == x
    ensures r == lo || r == x || r == hi
  {
    Max(lo, Min(x, hi))
  }

  /** Clamping twice is clamping once. */
  lemma ClampIdempotent(lo: real, x: real, hi: real)
    ensures Clamp(lo, Clamp(lo, x, hi), hi) == Clamp(lo, x, hi)
  {
  }

  /** The lower bound of one axis: half the item plus the padding. */
  function Low(half: real, padding: real): real { half + padding }

  /** The upper bound of one axis: the container minus half the item minus the padding. */
  function High(extent: real, half: real, padding: real): real { extent - half - padding }

  /**
   * Keeps an item centred at `p`, whose half-extents are `half`, at least
   * `padding` away from every edge of a container of size `box`.
   */
  function ClampIntoBox(p: Point, half: Size, padding: real, box: Size): (r: Point)
    ensures r.x >= Low(half.width, padding) && r.y >= Low(half.height, padding)
  {
    Point(Clamp(Low(half.width, padding), p.x, High(box.width, half.width, padding)),
          Clamp(Low(half.height, padding), p.y, High(box.height, half.height, padding)))
  }

  /** True when the clamp interval of both axes is non-empty. */
  predicate FitsInBox(half: Size, padding: real, box: Size) {
    Low(half.width, padding) <= High(box.width, half.width, padding) &&
    Low(half.height, padding) <= High(box.height, half.height, padding)
  }

  /** True when `p` lies in the clamp interval of both axes. */
  predicate InsideBox(p: Point, half: Size, padding: real, box: Size) {
    Low(half.width, padding) <= p.x <= High(box.width, half.width, padding) &&
    Low(half.height, padding) <= p.y <= High(box.height, half.height, padding)
  }

  /** Whenever the intervals are non-empty the clamped point lies inside them; a point already inside is kept. */
  lemma ClampIntoBoxBounds(p: Point, half: Size, padding: real, box: Size)
    ensures FitsInBox(half, padding, box) ==> InsideBox(ClampIntoBox(p, half, padding, box), half, padding, box)
    ensures InsideBox(p, half, padding, box) ==> ClampIntoBox(p, half, padding, box) == p
  {
  }

  /** The position as a fraction of the container: `pos / container`. */
  function Normalize(p: Point, box: Size): (r: Point)
    requires IsPositive(box)
    ensures r.x * box.width == p.x && r.y * box.height == p.y
  {
    Point(p.x / box.width, p.y / box.height)
  }

  /** A normalised position scaled back to a container: `normalized * container`. */
  function Denormalize(n: Point, box: Size): Point {
    Point(n.x * box.width, n.y * box.height)
  }

  /** Normalising and scaling back by the same container gives the position back exactly. */
  lemma NormalizeRoundTrip(p: Point, box: Size)
    requires IsPositive(box)
    ensures Denormalize(Normalize(p, box), box) == p
  {
  }

  /**
   * `sprite->boundingBox()` grown by `margin` on every side, tested with
   * `CCRect::containsPoint` (bounds included). The sprite's anchor is its
   * centre, so its box spans `|size * scale| / 2` either side of `centre`.
   */
  predicate InGrownBox(centre: Point, half: Size, margin: real, t: Point) {
    centre.x - Abs(half.width) - margin <= t.x <= centre.x + Abs(half.width) + margin &&
    centre.y - Abs(half.height) - margin <= t.y <= centre.y + Abs(half.height) + margin
  }

  /**
   * A sprite as far as placement goes: its texture's size, its scale, and the
   * position of its centre (sprites are anchored at their centre).
   */
  datatype Sprite = Sprite(content: Size, scale: real, position: Point) {
    /** Half the displayed size: `(content * scale) / 2` on each axis. */
    function Half(): Size {
      Size(content.width * scale / 2.0, content.height * scale / 2.0)
    }
  }

  /** The grab margin: a touch within this many units of a sprite's box still grabs it. */
  const GrabMargin: real := 10.0

  /** The four corners a PiP image can be placed in, as the `pip-position` setting numbers them. */
  datatype Corner = TopRight | TopLeft | BottomRight | BottomLeft

  /** The `pip-position` setting decoded; `None` for a number outside 0..3. */
  function CornerOf(setting: int): (c: Option<Corner>)
    ensures c.Some? <==> 0 <= setting <= 3
  {
    if setting == 0 then Some(TopRight)
    else if setting == 1 then Some(TopLeft)
    else if setting == 2 then Some(BottomRight)
    else if setting == 3 then Some(BottomLeft)
    else None
  }

  /**
   * The centre of an item of half-size `half` placed in `corner` of `box`,
   * `padding` away from the two edges of that corner.
   */
  function CornerPosition(corner: Corner, half: Size, padding: real, box: Size): (r: Point)
    ensures corner.TopRight? || corner.BottomRight? ==> r.x == High(box.width, half.width, padding)
    ensures corner.TopLeft? || corner.BottomLeft? ==> r.x == Low(half.width, padding)
    ensures corner.TopRight? || corner.TopLeft? ==> r.y == High(box.height, half.height, padding)
    ensures corner.BottomRight? || corner.BottomLeft? ==> r.y == Low(half.height, padding)
  {
    var left := Low(half.width, padding);
    var right := High(box.width, half.width, padding);
    var bottom := Low(half.height, padding);
    var top := High(box.height, half.height, padding);
    match corner
    case TopRight => Point(right, top)
    case TopLeft => Point(left, top)
    case BottomRight => Point(right, bottom)
    case BottomLeft => Point(left, bottom)
  }

  /** Every corner position lies inside the clamp box whenever that box is non-empty. */
  lemma CornerPositionInside(corner: Corner, half: Size, padding: real, box: Size)
    requires FitsInBox(half, padding, box)
    ensures InsideBox(CornerPosition(corner, half, padding, box), half, padding, box)
  {
  }
}
