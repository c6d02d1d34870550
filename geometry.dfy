/** Two-dimensional vectors over the reals, standing in for Bevy's `Vec2`
    (f32 components). Only the operations the game core uses are defined;
    lengths are kept squared so that no square root is needed. */
module Geometry {

  datatype Vec2 = Vec2(x: real, y: real)

  const Zero: Vec2 := Vec2(0.0, 0.0)

  function Add(a: Vec2, b: Vec2): Vec2 {
    Vec2(a.x + b.x, a.y + b.y)
  }

  function Sub(a: Vec2, b: Vec2): Vec2 {
    Vec2(a.x - b.x, a.y - b.y)
  }

  function Scale(k: real, a: Vec2): Vec2 {
    Vec2(k * a.x, k * a.y)
  }

  function Dot(a: Vec2, b: Vec2): real {
    a.x * b.x + a.y * b.y
  }

  /** The squared length `|a|^2`, i.e. `a.length().powi(2)`. */
  function LengthSq(a: Vec2): (r: real)
    ensures r >= 0.0
  {
    SquareNonNegative(a.x);
    SquareNonNegative(a.y);
    Dot(a, a)
  }

  /** The squared distance between two points, `p.distance(q)^2`. */
  function DistanceSq(p: Vec2, q: Vec2): (r: real)
    ensures r >= 0.0
  {
    LengthSq(Sub(p, q))
  }

  /** `dist > c`, where `dist` is the (non-negative) distance whose square is
      `distSq`: every distance exceeds a negative `c`; otherwise both sides are
      non-negative and are compared squared. */
  predicate FartherThan(distSq: real, c: real) {
    c < 0.0 || distSq > c * c
  }

  /** A vector turned a quarter turn; `Dot(a, Perp(b))` is the component of
      `a` along the tangent of the line through `b`. */
  function Perp(a: Vec2): Vec2 {
    Vec2(-a.y, a.x)
  }

  lemma DotSubScale(a: Vec2, b: Vec2, k: real, c: Vec2)
    ensures Dot(Sub(a, Scale(k, b)), c) == Dot(a, c) - k * Dot(b, c)
  {
  }

  lemma LengthSqSubScale(a: Vec2, b: Vec2, k: real)
    ensures LengthSq(Sub(a, Scale(k, b))) == LengthSq(a) - 2.0 * k * Dot(a, b) + k * k * LengthSq(b)
  {
  }

  lemma DistanceSqSymmetric(p: Vec2, q: Vec2)
    ensures DistanceSq(p, q) == DistanceSq(q, p)
  {
    NegSquare(p.x - q.x);
    NegSquare(p.y - q.y);
  }

  lemma SquareNonNegative(a: real)
    ensures a * a >= 0.0
  {
    if a < 0.0 {
      assert (-a) * (-a) >= 0.0 * (-a);
      NegSquare(a);
    } else {
      assert a * a >= 0.0 * a;
    }
  }

  lemma NegSquare(a: real)
    ensures (-a) * (-a) == a * a
  {
  }
}
