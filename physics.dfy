/**
 * The per-tick ball physics of the juggling game: gravity integration and the
 * wall/ceiling bounce (`updateBalls`), and the paddle collision response
 * (`checkCollisions`). Positions are in canvas pixels, velocities in pixels
 * per tick; JavaScript's floating point is modelled by `real`.
 */
module Physics {
  import opened Geometry

  // The game's `config` record.
  const BallCount: nat := 1
  const BallSize: real := 32.0
  const Gravity: real := 0.18
  const BounceVelocity: real := -7.5
  const HandSize: real := 48.0
  /** Fraction of the ball/paddle horizontal offset added to `vx` on a hit. */
  const SteerFactor: real := 0.14
  /** Height at which `initBalls` places every ball. */
  const SpawnY: real := 120.0

  /** The value of one ball record (its display colour is left out). */
  datatype BallState = BallState(x: real, y: real, vx: real, vy: real, size: real)

  /** A ball as `initBalls` creates it: centred horizontally, at rest. */
  function Spawned(width: real): (r: BallState)
    ensures r.vx == 0.0 && r.vy == 0.0 && r.size == BallSize
    ensures BallSize <= width ==> OnCanvas(r, width)
  {
    BallState(width / 2.0, SpawnY, 0.0, 0.0, BallSize)
  }

  // ---------------------------------------------------------------------------
  // updateBalls: integration, then walls, then ceiling

  /** One gravity step: `vy` grows first, and the position moves by the new `vy`. */
  function Integrate(b: BallState): (r: BallState)
    ensures r.size == b.size && r.vx == b.vx
    ensures r.vy - b.vy == Gravity
    ensures r.x - b.x == b.vx && r.y - b.y == b.vy + Gravity
  {
    var vy := b.vy + Gravity;
    b.(x := b.x + b.vx, y := b.y + vy, vy := vy)
  }

  /** The ball pokes out past the left or the right edge of the canvas. */
  predicate CrossesSide(b: BallState, width: real) {
    b.x - b.size / 2.0 < 0.0 || b.x + b.size / 2.0 > width
  }

  /** The ball pokes out past the top of the canvas. */
  predicate CrossesTop(b: BallState) {
    b.y - b.size / 2.0 < 0.0
  }

  /** Entirely between the side walls and below the ceiling (the floor is open). */
  ghost predicate OnCanvas(b: BallState, width: real) {
    b.size / 2.0 <= b.x <= width - b.size / 2.0 && b.size / 2.0 <= b.y
  }

  /**
   * Wall and ceiling resolution: a crossing negates the velocity component and
   * clamps the ball to the edge it crossed.
   */
  function BounceWalls(b: BallState, width: real): (r: BallState)
    ensures r.size == b.size
    ensures b.size / 2.0 <= r.y
    ensures b.size <= width ==> OnCanvas(r, width)
    ensures r.vx == (if CrossesSide(b, width) then -b.vx else b.vx)
    ensures r.vy == (if CrossesTop(b) then -b.vy else b.vy)
    ensures !CrossesSide(b, width) ==> r.x == b.x
    ensures !CrossesTop(b) ==> r.y == b.y
    ensures CrossesSide(b, width) ==>
      r.x == (if b.x < width / 2.0 then b.size / 2.0 else width - b.size / 2.0)
    ensures CrossesTop(b) ==> r.y == b.size / 2.0
  {
    var sided :=
      if CrossesSide(b, width) then
        b.(vx := b.vx * -1.0, x := if b.x < width / 2.0 then b.size / 2.0 else width - b.size / 2.0)
      else b;
    if CrossesTop(sided) then sided.(vy := sided.vy * -1.0, y := sided.size / 2.0) else sided
  }

  /** What `updateBalls` does to one ball. */
  function Advance(b: BallState, width: real): (r: BallState)
    ensures r.size == b.size
    ensures b.size <= width ==> OnCanvas(r, width)
  {
    BounceWalls(Integrate(b), width)
  }

  // ---------------------------------------------------------------------------
  // checkCollisions: every ball against every paddle, in list order

  /** The collision radius: half the ball's size plus half the paddle's. */
  function Reach(b: BallState): real {
    b.size / 2.0 + HandSize / 2.0
  }

  /** The source's hit test: `Math.sqrt` of the squared centre distance against the reach. */
  predicate Hits(b: BallState, h: Point, m: MathLib) {
    m.sqrt(SqDist(b.x, b.y, h.x, h.y)) < Reach(b)
  }

  /** Multiplying both sides of an equation by the same factor. */
  lemma Scale(u: real, v: real, k: real)
    requires u == v
    ensures u * k == v * k
  {
  }

  lemma SquareNonNegative(a: real)
    ensures 0.0 <= a * a
  {
    if a < 0.0 {
      var n := -a;
      assert a * a == n * n;
    }
  }

  /** The argument the hit test hands to `sqrt` is never negative. */
  lemma SqDistNonNegative(px: real, py: real, qx: real, qy: real)
    ensures 0.0 <= SqDist(px, py, qx, qy)
  {
    SquareNonNegative(px - qx);
    SquareNonNegative(py - qy);
  }

  /** Squaring is strictly monotone on the non-negative reals. */
  lemma SquareMonotone(a: real, b: real)
    requires 0.0 <= a && 0.0 <= b
    ensures a < b <==> a * a < b * b
  {
    var aa, ab, bb := a * a, a * b, b * b;
    if a < b {
      assert aa <= ab;
      assert ab < bb;
    } else {
      assert bb <= ab;
      assert ab <= aa;
    }
  }

  /** A hit is exactly a squared centre distance below the squared reach. */
  lemma HitsIffWithinReach(b: BallState, h: Point, m: MathLib)
    requires Exact(m) && 0.0 <= Reach(b)
    ensures Hits(b, h, m) <==> SqDist(b.x, b.y, h.x, h.y) < Reach(b) * Reach(b)
  {
    var d2 := SqDist(b.x, b.y, h.x, h.y);
    SqDistNonNegative(b.x, b.y, h.x, h.y);
    SquareMonotone(m.sqrt(d2), Reach(b));
  }

  /**
   * One ball against one paddle, as `checkCollisions` does it. On a hit `vy`
   * is overridden by the bounce constant, `vx` is steered by the horizontal
   * offset, and the ball is moved to `reach` from the paddle along the angle
   * `atan2(dy, dx)`; otherwise the ball is untouched.
   */
  function Collide(b: BallState, h: Point, m: MathLib): (r: BallState)
    ensures r.size == b.size
    ensures !Hits(b, h, m) ==> r == b
    ensures Hits(b, h, m) ==>
      r.vy == BounceVelocity && r.vx == b.vx + (b.x - h.x) * SteerFactor
  {
    var dx, dy := b.x - h.x, b.y - h.y;
    var reach := Reach(b);
    if Hits(b, h, m) then
      var angle := m.atan2(dy, dx);
      var targetX := h.x + m.cos(angle) * reach;
      var targetY := h.y + m.sin(angle) * reach;
      b.(vy := BounceVelocity, vx := b.vx + dx * SteerFactor, x := targetX, y := targetY)
    else
      b
  }

  lemma PositiveProduct(a: real, b: real)
    requires 0.0 < a && 0.0 < b
    ensures 0.0 < a * b
  {
  }

  /** The point (px, py) at `reach` from (hx, hy) along a unit vector lies at distance `reach`. */
  lemma OnCircle(px: real, py: real, hx: real, hy: real, c: real, s: real, reach: real)
    requires px == hx + c * reach && py == hy + s * reach && c * c + s * s == 1.0
    ensures SqDist(px, py, hx, hy) == reach * reach
  {
    var ox, oy := c * reach, s * reach;
    assert px - hx == ox && py - hy == oy;
    Scale(c * c + s * s, 1.0, reach * reach);
    assert ox * ox + oy * oy == reach * reach;
  }

  /** Moving from (hx, hy) along a (c, s) collinear with (dx, dy) stays on that line. */
  lemma OnLine(px: real, py: real, hx: real, hy: real, c: real, s: real, dx: real, dy: real, reach: real)
    requires px == hx + c * reach && py == hy + s * reach && c * dy == s * dx
    ensures (px - hx) * dy == (py - hy) * dx
  {
    var ox, oy := c * reach, s * reach;
    assert px - hx == ox && py - hy == oy;
    Scale(c * dy, s * dx, reach);
    assert ox * dy == oy * dx;
  }

  /** Moving a positive `reach` along a (c, s) on the side of (dx, dy) stays on that side. */
  lemma OnSide(px: real, py: real, hx: real, hy: real, c: real, s: real, dx: real, dy: real, reach: real)
    requires px == hx + c * reach && py == hy + s * reach
    requires 0.0 < c * dx + s * dy && 0.0 < reach
    ensures 0.0 < (px - hx) * dx + (py - hy) * dy
  {
    var ox, oy := c * reach, s * reach;
    assert px - hx == ox && py - hy == oy;
    PositiveProduct(c * dx + s * dy, reach);
    assert ox * dx + oy * dy == (c * dx + s * dy) * reach;
  }

  /** The reach of a hit ball is positive, since it exceeds a square root. */
  lemma HitReachPositive(b: BallState, h: Point, m: MathLib)
    requires Exact(m) && Hits(b, h, m)
    ensures 0.0 < Reach(b)
  {
    SqDistNonNegative(b.x, b.y, h.x, h.y);
  }

  /** Where a hit puts the ball: `reach` from the paddle along the angle `atan2(dy, dx)`. */
  lemma HitTarget(b: BallState, h: Point, m: MathLib)
    requires Hits(b, h, m)
    ensures Collide(b, h, m).x == h.x + m.cos(m.atan2(b.y - h.y, b.x - h.x)) * Reach(b)
    ensures Collide(b, h, m).y == h.y + m.sin(m.atan2(b.y - h.y, b.x - h.x)) * Reach(b)
  {
  }

  /** What `Exact` says of the angle of a ball's offset from a paddle. */
  lemma HitAngle(b: BallState, h: Point, m: MathLib)
    requires Exact(m)
    ensures m.cos(m.atan2(b.y - h.y, b.x - h.x)) * m.cos(m.atan2(b.y - h.y, b.x - h.x)) +
            m.sin(m.atan2(b.y - h.y, b.x - h.x)) * m.sin(m.atan2(b.y - h.y, b.x - h.x)) == 1.0
    ensures m.cos(m.atan2(b.y - h.y, b.x - h.x)) * (b.y - h.y) == m.sin(m.atan2(b.y - h.y, b.x - h.x)) * (b.x - h.x)
    ensures b.x != h.x || b.y != h.y ==>
      0.0 < m.cos(m.atan2(b.y - h.y, b.x - h.x)) * (b.x - h.x) + m.sin(m.atan2(b.y - h.y, b.x - h.x)) * (b.y - h.y)
    ensures b.x == h.x && b.y == h.y ==>
      m.cos(m.atan2(b.y - h.y, b.x - h.x)) == 1.0 && m.sin(m.atan2(b.y - h.y, b.x - h.x)) == 0.0
  {
    assert b.x == h.x && b.y == h.y ==> b.y - h.y == 0.0 && b.x - h.x == 0.0;
  }

  // The three steps below use only the angle's properties, not `Exact` itself,
  // which keeps the solver from unfolding both at once.

  lemma ToReachAtAngle(b: BallState, h: Point, m: MathLib)
    requires Hits(b, h, m)
    requires m.cos(m.atan2(b.y - h.y, b.x - h.x)) * m.cos(m.atan2(b.y - h.y, b.x - h.x)) +
             m.sin(m.atan2(b.y - h.y, b.x - h.x)) * m.sin(m.atan2(b.y - h.y, b.x - h.x)) == 1.0
    ensures SqDist(Collide(b, h, m).x, Collide(b, h, m).y, h.x, h.y) == Reach(b) * Reach(b)
  {
    HitTarget(b, h, m);
    OnCircle(Collide(b, h, m).x, Collide(b, h, m).y, h.x, h.y,
      m.cos(m.atan2(b.y - h.y, b.x - h.x)), m.sin(m.atan2(b.y - h.y, b.x - h.x)), Reach(b));
  }

  lemma AlongLineAtAngle(b: BallState, h: Point, m: MathLib)
    requires Hits(b, h, m)
    requires m.cos(m.atan2(b.y - h.y, b.x - h.x)) * (b.y - h.y) == m.sin(m.atan2(b.y - h.y, b.x - h.x)) * (b.x - h.x)
    ensures (Collide(b, h, m).x - h.x) * (b.y - h.y) == (Collide(b, h, m).y - h.y) * (b.x - h.x)
  {
    HitTarget(b, h, m);
    OnLine(Collide(b, h, m).x, Collide(b, h, m).y, h.x, h.y,
      m.cos(m.atan2(b.y - h.y, b.x - h.x)), m.sin(m.atan2(b.y - h.y, b.x - h.x)),
      b.x - h.x, b.y - h.y, Reach(b));
  }

  lemma OutwardAtAngle(b: BallState, h: Point, m: MathLib)
    requires Hits(b, h, m) && 0.0 < Reach(b)
    requires 0.0 < m.cos(m.atan2(b.y - h.y, b.x - h.x)) * (b.x - h.x) + m.sin(m.atan2(b.y - h.y, b.x - h.x)) * (b.y - h.y)
    ensures 0.0 < (Collide(b, h, m).x - h.x) * (b.x - h.x) + (Collide(b, h, m).y - h.y) * (b.y - h.y)
  {
    HitTarget(b, h, m);
    OnSide(Collide(b, h, m).x, Collide(b, h, m).y, h.x, h.y,
      m.cos(m.atan2(b.y - h.y, b.x - h.x)), m.sin(m.atan2(b.y - h.y, b.x - h.x)),
      b.x - h.x, b.y - h.y, Reach(b));
  }

  /** A hit leaves the ball exactly at the collision radius from the paddle. */
  lemma PushedToReach(b: BallState, h: Point, m: MathLib)
    requires Exact(m) && Hits(b, h, m)
    ensures SqDist(Collide(b, h, m).x, Collide(b, h, m).y, h.x, h.y) == Reach(b) * Reach(b)
  {
    HitAngle(b, h, m);
    ToReachAtAngle(b, h, m);
  }

  /** A hit moves the ball along the line through the paddle and the ball's old centre. */
  lemma PushedAlongLine(b: BallState, h: Point, m: MathLib)
    requires Exact(m) && Hits(b, h, m)
    ensures (Collide(b, h, m).x - h.x) * (b.y - h.y) == (Collide(b, h, m).y - h.y) * (b.x - h.x)
  {
    HitAngle(b, h, m);
    AlongLineAtAngle(b, h, m);
  }

  /**
   * Unless the centres coincided, a hit moves the ball onto the same side of
   * the paddle as it was: pushed outward, never through the paddle.
   */
  lemma PushedOutward(b: BallState, h: Point, m: MathLib)
    requires Exact(m) && Hits(b, h, m) && (b.x != h.x || b.y != h.y)
    ensures 0.0 < (Collide(b, h, m).x - h.x) * (b.x - h.x) + (Collide(b, h, m).y - h.y) * (b.y - h.y)
  {
    HitAngle(b, h, m);
    HitReachPositive(b, h, m);
    OutwardAtAngle(b, h, m);
  }

  /** A ball dead centre on a paddle is pushed straight to the right of it. */
  lemma CentredGoesRight(b: BallState, h: Point, m: MathLib)
    requires Exact(m) && Hits(b, h, m) && b.x == h.x && b.y == h.y
    ensures Collide(b, h, m).x == h.x + Reach(b) && Collide(b, h, m).y == h.y
  {
    HitAngle(b, h, m);
    HitTarget(b, h, m);
  }

  /** The ball after meeting every paddle of `hands`, cumulatively and in list order. */
  function CollideAll(b: BallState, hands: seq<Point>, m: MathLib): (r: BallState)
    ensures r.size == b.size
    decreases |hands|
  {
    if hands == [] then b
    else Collide(CollideAll(b, hands[..|hands| - 1], m), hands[|hands| - 1], m)
  }

  /** Some paddle of `hands` was hit while the ball passed through the list. */
  predicate HitDuring(b: BallState, hands: seq<Point>, m: MathLib)
    decreases |hands|
  {
    hands != [] &&
    (HitDuring(b, hands[..|hands| - 1], m) ||
     Hits(CollideAll(b, hands[..|hands| - 1], m), hands[|hands| - 1], m))
  }

  /**
   * The bounce overrides rather than adds: once any paddle has been hit the
   * ball leaves with `vy` equal to the bounce constant, whatever later paddles
   * do; a pass with no hit leaves the ball exactly as it was.
   */
  lemma {:induction false} BounceOverrides(b: BallState, hands: seq<Point>, m: MathLib)
    ensures HitDuring(b, hands, m) ==> CollideAll(b, hands, m).vy == BounceVelocity
    ensures !HitDuring(b, hands, m) ==> CollideAll(b, hands, m) == b
    decreases |hands|
  {
    if hands != [] {
      BounceOverrides(b, hands[..|hands| - 1], m);
    }
  }

  /**
   * A worked case: a ball falling dead centre onto a paddle is
   * pushed straight right, to 40 px from the paddle, and bounced upward.
   */
  lemma CentredHit(m: MathLib)
    requires Exact(m)
    ensures Collide(BallState(100.0, 100.0, 0.0, 5.0, BallSize), Point(100.0, 100.0), m)
         == BallState(140.0, 100.0, 0.0, BounceVelocity, BallSize)
  {
    var b, h := BallState(100.0, 100.0, 0.0, 5.0, BallSize), Point(100.0, 100.0);
    assert SqDist(b.x, b.y, h.x, h.y) == 0.0;
    var z := m.sqrt(0.0);
    assert 0.0 <= z && z * z == 0.0;
    if z != 0.0 {
      PositiveProduct(z, z);
    }
  }

  // ---------------------------------------------------------------------------
  // The same steps over the whole ball list

  function AdvanceAll(bs: seq<BallState>, width: real): (r: seq<BallState>)
    ensures |r| == |bs|
  {
    seq(|bs|, i requires 0 <= i < |bs| => Advance(bs[i], width))
  }

  function CollideEach(bs: seq<BallState>, hands: seq<Point>, m: MathLib): (r: seq<BallState>)
    ensures |r| == |bs|
  {
    seq(|bs|, i requires 0 <= i < |bs| => CollideAll(bs[i], hands, m))
  }

  /** After `updateBalls`, every ball no larger than the canvas is on it. */
  lemma AdvanceAllOnCanvas(bs: seq<BallState>, width: real, i: nat)
    requires i < |bs| && bs[i].size <= width
    ensures OnCanvas(AdvanceAll(bs, width)[i], width)
  {
  }

  // ---------------------------------------------------------------------------
  // A ball record, updated in place

  class Ball {
    var x: real
    var y: real
    var vx: real
    var vy: real
    const size: real

    function State(): BallState
      reads this
    {
      BallState(x, y, vx, vy, size)
    }

    /** One ball of `initBalls`. */
    constructor (width: real)
      ensures State() == Spawned(width)
    {
      x, y, vx, vy := width / 2.0, SpawnY, 0.0, 0.0;
      size := BallSize;
    }

    /** The body of `updateBalls` for this ball. */
    method Update(width: real)
      modifies this
      ensures State() == Advance(old(State()), width)
    {
      vy := vy + Gravity;
      x := x + vx;
      y := y + vy;
      if x - size / 2.0 < 0.0 || x + size / 2.0 > width {
        vx := vx * -1.0;
        x := if x < width / 2.0 then size / 2.0 else width - size / 2.0;
      }
      if y - size / 2.0 < 0.0 {
        vy := vy * -1.0;
        y := size / 2.0;
      }
    }

    /** The innermost body of `checkCollisions`: this ball against one paddle. */
    method CollideHand(hand: Point, m: MathLib)
      modifies this
      ensures State() == Collide(old(State()), hand, m)
    {
      var dx := x - hand.x;
      var dy := y - hand.y;
      var distance := m.sqrt(dx * dx + dy * dy);
      assert State().x == x && State().y == y;
      assert SqDist(x, y, hand.x, hand.y) == dx * dx + dy * dy;
      if distance < size / 2.0 + HandSize / 2.0 {
        vy := BounceVelocity;
        vx := vx + dx * SteerFactor;
        var angle := m.atan2(dy, dx);
        var targetX := hand.x + m.cos(angle) * (size / 2.0 + HandSize / 2.0);
        var targetY := hand.y + m.sin(angle) * (size / 2.0 + HandSize / 2.0);
        x := targetX;
        y := targetY;
      }
    }

    /** This ball's pass of `checkCollisions`: the paddles in list order. */
    method CollideHands(hands: seq<Point>, m: MathLib)
      modifies this
      ensures State() == CollideAll(old(State()), hands, m)
    {
      var j := 0;
      while j < |hands|
        invariant j <= |hands|
        invariant State() == CollideAll(old(State()), hands[..j], m)
      {
        assert hands[..j + 1][..j] == hands[..j];
        CollideHand(hands[j], m);
        j := j + 1;
      }
      assert hands[..j] == hands;
    }
  }

  /** The values of a list of ball records. */
  function States(balls: seq<Ball>): (r: seq<BallState>)
    reads balls
    ensures |r| == |balls|
    ensures forall i :: 0 <= i < |balls| ==> r[i] == balls[i].State()
  {
    if balls == [] then [] else States(balls[..|balls| - 1]) + [balls[|balls| - 1].State()]
  }
}
