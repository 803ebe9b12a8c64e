/** World geometry of the knowledge map: the layout constants, the clamp that
    keeps every coordinate inside the world square, and Euclidean length.

    `Math.hypot` has no closed form over the reals, so it is passed to every
    operation that needs it as a function `h` that satisfies `IsHypot(h)`:
    non-negative, and its square is dx*dx + dy*dy. That is all the code relies on. */
module Geometry {

  const CANVAS_EXTENT: real := 4000.0
  const NODE_RADIUS: real := 90.0
  const MAX_LINK_LENGTH: real := 420.0
  const STRETCH_BAND: real := 100.0
  const FOLLOW_FACTOR: real := 0.45
  const MIN_NODE_DISTANCE: real := 190.0

  /** A point in world coordinates (a topic's position) or in screen pixels. */
  datatype Point = Point(x: real, y: real)

  type Hypot = (real, real) -> real

  /** What `Math.hypot(dx, dy)` is: the non-negative square root of dx^2 + dy^2. */
  ghost predicate IsHypot(h: Hypot) {
    forall dx: real, dy: real :: HypotLaw(h, dx, dy)
  }

  /** The law at one vector. It is stated separately so that the law is only brought
      into a proof where one asks for it, not at every use of h. */
  ghost predicate HypotLaw(h: Hypot, dx: real, dy: real) {
    h(dx, dy) >= 0.0 && Sq(h(dx, dy)) == Sq(dx) + Sq(dy)
  }

  function Sq(a: real): real { a * a }

  function Min(a: real, b: real): real { if a < b then a else b }
  function Max(a: real, b: real): real { if a > b then a else b }

  function Abs(a: real): (r: real)
    ensures r >= 0.0 && (r == a || r == -a)
  {
    if a < 0.0 then -a else a
  }

  /** `clampWithinCanvas`: Math.max(-CANVAS_EXTENT, Math.min(CANVAS_EXTENT, v)). */
  function Clamp(v: real): (r: real)
    ensures -CANVAS_EXTENT <= r <= CANVAS_EXTENT
    ensures -CANVAS_EXTENT <= v <= CANVAS_EXTENT ==> r == v
    ensures v > CANVAS_EXTENT ==> r == CANVAS_EXTENT
    ensures v < -CANVAS_EXTENT ==> r == -CANVAS_EXTENT
  {
    Max(-CANVAS_EXTENT, Min(CANVAS_EXTENT, v))
  }

  function ClampPoint(p: Point): (r: Point)
    ensures InCanvas(r)
    ensures InCanvas(p) ==> r == p
  {
    Point(Clamp(p.x), Clamp(p.y))
  }

  predicate InCanvas(p: Point) {
    -CANVAS_EXTENT <= p.x <= CANVAS_EXTENT && -CANVAS_EXTENT <= p.y <= CANVAS_EXTENT
  }

  lemma SqNonNeg(a: real)
    ensures Sq(a) >= 0.0
    ensures a != 0.0 ==> Sq(a) > 0.0
  {
    calc { Sq(a); == a * a; >= 0.0; }
    if a != 0.0 {
      calc { Sq(a); == a * a; > 0.0; }
    }
  }

  lemma SqMul(a: real, b: real)
    ensures Sq(a * b) == Sq(a) * Sq(b)
  {
  }

  lemma SqLess(a: real, b: real)
    requires 0.0 <= a < b
    ensures Sq(a) < Sq(b)
  {
    calc { Sq(a); == a * a; <= a * b; < b * b; == Sq(b); }
  }

  /** Two non-negative reals with the same square are equal. */
  lemma SquareRootUnique(a: real, b: real)
    requires a >= 0.0 && b >= 0.0 && Sq(a) == Sq(b)
    ensures a == b
  {
    if a < b {
      SqLess(a, b);
    } else if b < a {
      SqLess(b, a);
    }
  }

  /** `Math.hypot` is zero exactly at the origin. */
  lemma HypotZeroIff(h: Hypot, dx: real, dy: real)
    requires IsHypot(h)
    ensures h(dx, dy) >= 0.0
    ensures h(dx, dy) == 0.0 <==> dx == 0.0 && dy == 0.0
  {
    var r := h(dx, dy);
    assert HypotLaw(h, dx, dy);
    SqNonNeg(dx);
    SqNonNeg(dy);
    SqNonNeg(r);
    if dx == 0.0 && dy == 0.0 {
      SquareRootUnique(r, 0.0);
    }
  }

  /** Scaling a vector by k >= 0 scales its length by k. */
  lemma HypotScale(h: Hypot, k: real, dx: real, dy: real)
    requires IsHypot(h) && k >= 0.0
    ensures h(k * dx, k * dy) == k * h(dx, dy)
  {
    var r := h(dx, dy);
    var s := h(k * dx, k * dy);
    assert HypotLaw(h, dx, dy);
    assert HypotLaw(h, k * dx, k * dy);
    SqMul(k, dx);
    SqMul(k, dy);
    SqMul(k, r);
    calc {
      Sq(s);
      Sq(k) * Sq(dx) + Sq(k) * Sq(dy);
      Sq(k) * (Sq(dx) + Sq(dy));
      Sq(k * r);
    }
    calc { k * r; >= 0.0; }
    SquareRootUnique(s, k * r);
  }

  /** Length does not depend on the sign or the order of the components. */
  lemma HypotRotate(h: Hypot, dx: real, dy: real)
    requires IsHypot(h)
    ensures h(-dy, dx) == h(dx, dy)
    ensures h(-dx, -dy) == h(dx, dy)
  {
    var r := h(dx, dy);
    assert HypotLaw(h, dx, dy);
    assert HypotLaw(h, -dy, dx);
    assert HypotLaw(h, -dx, -dy);
    SquareRootUnique(h(-dy, dx), r);
    SquareRootUnique(h(-dx, -dy), r);
  }

  /** The length of a vector whose square length is known, e.g. h(600, 0) == 600. */
  lemma HypotOf(h: Hypot, dx: real, dy: real, r: real)
    requires IsHypot(h) && r >= 0.0 && Sq(r) == Sq(dx) + Sq(dy)
    ensures h(dx, dy) == r
  {
    assert HypotLaw(h, dx, dy);
    SquareRootUnique(h(dx, dy), r);
  }

  /** The distance used by the pull and by link paths: `Math.hypot(dx, dy) || 1`. */
  function DistanceOrOne(h: Hypot, dx: real, dy: real): (r: real)
    requires IsHypot(h)
    ensures r > 0.0
    ensures h(dx, dy) == 0.0 <==> dx == 0.0 && dy == 0.0
    ensures h(dx, dy) == 0.0 ==> r == 1.0
    ensures h(dx, dy) != 0.0 ==> r == h(dx, dy)
  {
    HypotZeroIff(h, dx, dy);
    if h(dx, dy) == 0.0 then 1.0 else h(dx, dy)
  }

  /** HypotScale for a vector given by its components. */
  lemma HypotScaled(h: Hypot, k: real, dx: real, dy: real, mx: real, my: real)
    requires IsHypot(h) && k >= 0.0 && mx == k * dx && my == k * dy
    ensures h(mx, my) == k * h(dx, dy)
  {
    HypotScale(h, k, dx, dy);
  }
}
