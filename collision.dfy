/** Collision tests between placed shapes: the layer filter, and the
    circle/circle, circle/rectangle, rectangle/circle and
    rectangle/rectangle geometry. */
module Collision {
  import opened Vectors
  import opened Physics

  /** The layer filter `layerMask == layerMask or other.isLayer`, as written. */
  predicate MaskAccepts(layerMask: bv32, otherLayer: bv32)
  {
    layerMask == layerMask | otherLayer
  }

  /** The filter is a subset test: every bit of the other shape's layer
      must be set in this shape's mask. */
  lemma MaskIsSubset(layerMask: bv32, otherLayer: bv32)
    ensures MaskAccepts(layerMask, otherLayer) ==> otherLayer & layerMask == otherLayer
    ensures otherLayer & layerMask == otherLayer ==> MaskAccepts(layerMask, otherLayer)
  {
  }

  /** A shape on no layer (the default) passes every filter. */
  lemma NoLayerPassesEveryMask(layerMask: bv32)
    ensures MaskAccepts(layerMask, 0)
  {
  }

  /** For the single-bit layers the subset test is an overlap test. */
  lemma SingleBitLayers(layerMask: bv32)
    ensures MaskAccepts(layerMask, PLAYER) <==> layerMask & PLAYER != 0
    ensures MaskAccepts(layerMask, ENEMY) <==> layerMask & ENEMY != 0
    ensures MaskAccepts(layerMask, ENVIRONMENT) <==> layerMask & ENVIRONMENT != 0
  {
  }

  /** An axis-aligned rectangle (`android.graphics.RectF`). */
  datatype Rect = Rect(left: real, top: real, right: real, bottom: real)

  /** `RectF.contains(x, y)`, taken to be Android's documented test: a
      non-empty rectangle, closed on its left and top edges and open on
      its right and bottom edges. */
  predicate RectContains(r: Rect, p: Vec2)
  {
    r.left < r.right && r.top < r.bottom &&
    r.left <= p.x < r.right && r.top <= p.y < r.bottom
  }

  /** `RectF.intersect(r)` as a test, taken to be Android's documented
      strict overlap (rectangles that only share an edge do not intersect). */
  predicate RectsIntersect(a: Rect, b: Rect)
  {
    a.left < b.right && b.left < a.right && a.top < b.bottom && b.top < a.bottom
  }

  lemma RectsIntersectSymmetric(a: Rect, b: Rect)
    ensures RectsIntersect(a, b) <==> RectsIntersect(b, a)
  {
  }

  /** The rectangle of a collision rectangle: `width` by `height`, centred
      on the owner's position. */
  function CenteredRect(center: Vec2, width: real, height: real): (r: Rect)
    ensures r.right - r.left == width && r.bottom - r.top == height
    ensures r.left + r.right == 2.0 * center.x && r.top + r.bottom == 2.0 * center.y
  {
    var left := center.x - width / 2.0;
    var top := center.y - height / 2.0;
    Rect(left, top, left + width, top + height)
  }

  /** `coerceIn(lo..hi)`; the source throws on an empty range, which the
      precondition excludes. */
  function Clamp(v: real, lo: real, hi: real): (r: real)
    requires lo <= hi
    ensures lo <= r <= hi
    ensures lo <= v <= hi ==> r == v
    ensures v < lo ==> r == lo
    ensures v > hi ==> r == hi
  {
    if v < lo then lo else if v > hi then hi else v
  }

  /** A point is within `radius` of another, stated on squares: the
      source's `distance(a, b) <= radius`. */
  predicate WithinDistance(a: Vec2, b: Vec2, radius: real)
  {
    radius >= 0.0 && DistanceSquared(a, b) <= radius * radius
  }

  lemma MulMonotone(a: real, b: real, c: real, d: real)
    requires 0.0 <= a <= b && 0.0 <= c <= d
    ensures a * c <= b * d
  {
    assert a * c <= b * c;
    assert b * c <= b * d;
  }

  lemma MulStrict(a: real, b: real, c: real, d: real)
    requires 0.0 <= a < b && 0.0 <= c < d
    ensures a * c < b * d
  {
    assert a * c <= b * c;
    assert b * c < b * d;
  }

  /** The squared test agrees with a comparison of the actual distance `d`. */
  lemma WithinDistanceIsDistance(a: Vec2, b: Vec2, radius: real, d: real)
    requires IsLength(b.Minus(a), d)
    ensures WithinDistance(a, b, radius) <==> d <= radius
  {
    if d <= radius {
      MulMonotone(d, radius, d, radius);
    } else if radius >= 0.0 {
      MulStrict(radius, d, radius, d);
    }
  }

  /** Circle/rectangle geometry, shared by both overloads: the centre lies
      in the rectangle, or the nearest point of the rectangle is closer
      than the radius (strictly). */
  predicate CircleMeetsRect(center: Vec2, radius: real, r: Rect)
    requires r.left <= r.right && r.top <= r.bottom
  {
    RectContains(r, center) ||
    (var x := Clamp(center.x, r.left, r.right);
     var y := Clamp(center.y, r.top, r.bottom);
     var dx := center.x - x;
     var dy := center.y - y;
     dx * dx + dy * dy < radius * radius)
  }

  /** The two kinds of collision shape. */
  datatype Geometry = Circle(radius: real) | Rectangle(width: real, height: real)

  /** A shape placed at its owner's position, with its layer settings. */
  datatype Placed = Placed(geometry: Geometry, layerMask: bv32, isLayer: bv32, position: Vec2) {
    /** A rectangle's sides are not negative (its bitmap's dimensions). */
    predicate WellFormed()
    {
      geometry.Rectangle? ==> geometry.width >= 0.0 && geometry.height >= 0.0
    }

    function Bounds(): (r: Rect)
      requires geometry.Rectangle?
      ensures WellFormed() ==> r.left <= r.right && r.top <= r.bottom
    {
      CenteredRect(position, geometry.width, geometry.height)
    }
  }

  /** `CollisionCircle.collidesWith(circle)`: inclusive, touching counts. */
  predicate CircleCircle(a: Placed, b: Placed)
    requires a.geometry.Circle? && b.geometry.Circle?
  {
    if MaskAccepts(a.layerMask, b.isLayer) then
      WithinDistance(a.position, b.position, a.geometry.radius + b.geometry.radius)
    else false
  }

  /** `CollisionCircle.collidesWith(rectangle)`. */
  predicate CircleRect(a: Placed, b: Placed)
    requires a.geometry.Circle? && b.geometry.Rectangle? && b.WellFormed()
  {
    if !MaskAccepts(a.layerMask, b.isLayer) then false
    else CircleMeetsRect(a.position, a.geometry.radius, b.Bounds())
  }

  /** `CollisionRectangle.collidesWith(circle)`. */
  predicate RectCircle(a: Placed, b: Placed)
    requires a.geometry.Rectangle? && a.WellFormed() && b.geometry.Circle?
  {
    if !MaskAccepts(a.layerMask, b.isLayer) then false
    else CircleMeetsRect(b.position, b.geometry.radius, a.Bounds())
  }

  /** `CollisionRectangle.collidesWith(rectangle)`. */
  predicate RectRect(a: Placed, b: Placed)
    requires a.geometry.Rectangle? && b.geometry.Rectangle?
  {
    if MaskAccepts(a.layerMask, b.isLayer) then RectsIntersect(b.Bounds(), a.Bounds()) else false
  }

  /** `collidesWith(shape)`: the circle overload when the other shape is a
      circle, the rectangle overload otherwise. */
  predicate CollidesWith(a: Placed, b: Placed)
    requires a.WellFormed() && b.WellFormed()
  {
    if b.geometry.Circle? then
      (if a.geometry.Circle? then CircleCircle(a, b) else RectCircle(a, b))
    else
      (if a.geometry.Circle? then CircleRect(a, b) else RectRect(a, b))
  }

  /** Whether the shapes overlap, whatever their layers. */
  predicate Touching(a: Placed, b: Placed)
    requires a.WellFormed() && b.WellFormed()
  {
    match (a.geometry, b.geometry)
    case (Circle(ra), Circle(rb)) => WithinDistance(a.position, b.position, ra + rb)
    case (Circle(ra), Rectangle(_, _)) => CircleMeetsRect(a.position, ra, b.Bounds())
    case (Rectangle(_, _), Circle(rb)) => CircleMeetsRect(b.position, rb, a.Bounds())
    case (Rectangle(_, _), Rectangle(_, _)) => RectsIntersect(a.Bounds(), b.Bounds())
  }

  /** A test passes exactly when this shape's mask accepts the other's
      layer and the shapes overlap. Overlap does not depend on the order,
      so the two directions of a pair can differ only through their masks. */
  lemma {:induction false} CollidesIffMaskAndTouching(a: Placed, b: Placed)
    requires a.WellFormed() && b.WellFormed()
    ensures CollidesWith(a, b) <==> MaskAccepts(a.layerMask, b.isLayer) && Touching(a, b)
    ensures Touching(a, b) <==> Touching(b, a)
  {
    DistanceSymmetric(a.position, b.position);
    if a.geometry.Rectangle? && b.geometry.Rectangle? {
      RectsIntersectSymmetric(a.Bounds(), b.Bounds());
    }
  }

  /** Circles exactly r1 + r2 apart collide (the test is inclusive). */
  lemma TouchingCirclesCollide(r1: real, r2: real, layerMask: bv32, isLayer: bv32)
    requires r1 >= 0.0 && r2 >= 0.0 && MaskAccepts(layerMask, isLayer)
    ensures CollidesWith(Placed(Circle(r1), layerMask, 0, Vec2(0.0, 0.0)),
                         Placed(Circle(r2), 0, isLayer, Vec2(r1 + r2, 0.0)))
  {
    var s := r1 + r2;
    assert DistanceSquared(Vec2(0.0, 0.0), Vec2(s, 0.0)) == s * s;
  }

  /** A circle whose radius just reaches the side of a rectangle does not
      collide with it (the circle/rectangle test is strict). */
  lemma GrazingCircleMissesRect()
    ensures !CollidesWith(Placed(Circle(1.0), 0, 0, Vec2(3.0, 0.0)),
                          Placed(Rectangle(4.0, 4.0), 0, 0, Vec2(0.0, 0.0)))
  {
    var b := Placed(Rectangle(4.0, 4.0), 0, 0, Vec2(0.0, 0.0));
    assert b.Bounds() == Rect(-2.0, -2.0, 2.0, 2.0);
  }

  /** A circle whose centre lies in a rectangle collides with it when the
      masks allow, whatever its radius. */
  lemma CentreInsideCollides(a: Placed, b: Placed)
    requires a.geometry.Circle? && b.geometry.Rectangle? && b.WellFormed()
    requires MaskAccepts(a.layerMask, b.isLayer) && RectContains(b.Bounds(), a.position)
    ensures CollidesWith(a, b)
  {
  }

  /** The layer settings of the shapes the game creates: the player's
      circle (mask ENEMY, layer PLAYER) and a pipe's rectangle (mask 0,
      layer ENEMY). The player's test against itself never passes, the
      player's test against a pipe may pass, and a pipe's tests against
      the player or another pipe never pass. */
  lemma GameLayers()
    ensures !MaskAccepts(ENEMY, PLAYER)
    ensures MaskAccepts(ENEMY, ENEMY)
    ensures !MaskAccepts(0, PLAYER) && !MaskAccepts(0, ENEMY)
  {
  }

  /** The point test of a circle: within its radius (inclusive). */
  predicate CircleContains(center: Vec2, radius: real, point: Vec2)
  {
    WithinDistance(center, point, radius)
  }

  /** `contains(point)`, for either kind of shape. */
  predicate Contains(a: Placed, point: Vec2)
  {
    match a.geometry
    case Circle(radius) => CircleContains(a.position, radius, point)
    case Rectangle(w, h) => RectContains(a.Bounds(), point)
  }
}
