/** Plane geometry the game borrows from its widget toolkit: two-component
    vectors, the axis-aligned rectangle every widget occupies (its `pos` and
    `size`, with `top`, `right` and `center` derived from them), the toolkit's
    rectangle-overlap test, and the paddle's deflection offset. Coordinates are
    exact reals. */
module Geometry {

  /** A velocity or displacement `(x, y)`. */
  datatype Vector = Vector(x: real, y: real) {
    function Plus(other: Vector): (r: Vector) {
      Vector(x + other.x, y + other.y)
    }

    function Scaled(k: real): (r: Vector) {
      Vector(k * x, k * y)
    }
  }

  /** The rectangle a widget occupies: its lower-left corner `(x, y)` and its size. */
  datatype Box = Box(x: real, y: real, width: real, height: real) {
    function Top(): real { y + height }
    function Right(): real { x + width }
    function CenterX(): real { x + width / 2.0 }
    function CenterY(): real { y + height / 2.0 }

    /** The same rectangle with its corner shifted by `v` (`pos = v + pos`). */
    function Translated(v: Vector): (r: Box)
      ensures r.width == width && r.height == height
      ensures r.CenterX() == CenterX() + v.x && r.CenterY() == CenterY() + v.y
    {
      Box(x + v.x, y + v.y, width, height)
    }

    /** The rectangle after assigning its `center`: same size, centre at `(cx, cy)`. */
    function WithCenter(cx: real, cy: real): (r: Box)
      ensures r.width == width && r.height == height
      ensures r.CenterX() == cx && r.CenterY() == cy
    {
      Box(cx - width / 2.0, cy - height / 2.0, width, height)
    }

    /** The rectangle after assigning its `center_y`: only `y` moves. */
    function WithCenterY(cy: real): (r: Box)
      ensures r.x == x && r.width == width && r.height == height
      ensures r.CenterY() == cy
    {
      Box(x, cy - height / 2.0, width, height)
    }
  }

  function Abs(x: real): (r: real) {
    if x < 0.0 then -x else x
  }

  /** The toolkit's `collide_widget` as seen from widget `a`: the two rectangles
      overlap unless one lies strictly to one side of the other. Touching edges
      count as a collision. */
  predicate Collides(a: Box, b: Box) {
    !(a.Right() < b.x) && !(a.x > b.Right()) && !(a.Top() < b.y) && !(a.y > b.Top())
  }

  /** An independent characterisation of `Collides` for rectangles of
      non-negative size: on each axis the centres are no further apart than the
      two half-extents together. It also shows the test is symmetric. */
  lemma CollidesIffCentresClose(a: Box, b: Box)
    requires a.width >= 0.0 && a.height >= 0.0 && b.width >= 0.0 && b.height >= 0.0
    ensures Collides(a, b) <==>
              Abs(a.CenterX() - b.CenterX()) <= (a.width + b.width) / 2.0 &&
              Abs(a.CenterY() - b.CenterY()) <= (a.height + b.height) / 2.0
    ensures Collides(a, b) == Collides(b, a)
  {
  }

  /** How far the ball's centre lies above (positive) or below (negative) the
      paddle's centre, in units of half the paddle's height. */
  function Offset(ball: Box, paddle: Box): (r: real)
    requires paddle.height > 0.0
  {
    (ball.CenterY() - paddle.CenterY()) / (paddle.height / 2.0)
  }

  /** What the offset means: scaled back by half the paddle's height it is
      the distance between the centres; its sign says on which side of the
      paddle's centre the ball's centre is; it lies in [-1, 1] exactly when
      the ball's centre is level with some part of the paddle. */
  lemma OffsetMeaning(ball: Box, paddle: Box)
    requires paddle.height > 0.0
    ensures Offset(ball, paddle) * (paddle.height / 2.0) == ball.CenterY() - paddle.CenterY()
    ensures Offset(ball, paddle) >= 0.0 <==> ball.CenterY() >= paddle.CenterY()
    ensures Abs(Offset(ball, paddle)) <= 1.0 <==> paddle.y <= ball.CenterY() <= paddle.Top()
  {
  }
}
