/**
 * Plane geometry of the motion stack: 2-D vectors and robot poses.
 *
 * Both are immutable records whose operators build new values componentwise.
 * Coordinates are exact reals here; the source's doubles, and everything that
 * needs a square root or a trigonometric function (norm, angle, rotation,
 * polar construction, heading vectors), are not part of this module.
 */
module Geometry {

  /** A 2-D vector (x, y); both coordinates default to 0. */
  datatype Vector2d = Vector2d(x: real := 0.0, y: real := 0.0) {

    /** Componentwise sum, with the zero vector as its identity. */
    function Plus(other: Vector2d): (r: Vector2d)
      ensures other == Vector2d() ==> r == this
      ensures this == Vector2d() ==> r == other
    {
      Vector2d(x + other.x, y + other.y)
    }

    /** Componentwise difference: it undoes Plus, and is zero only for equal vectors. */
    function Minus(other: Vector2d): (r: Vector2d)
      ensures r.Plus(other) == this
      ensures r == Vector2d() <==> this == other
    {
      Vector2d(x - other.x, y - other.y)
    }

    /** Scaling by a scalar: the result is parallel to this vector. */
    function Times(scalar: real): (r: Vector2d)
      ensures r.Cross(this) == 0.0
      ensures r.Dot(this) == scalar * this.Dot(this)
    {
      Vector2d(scalar * x, scalar * y)
    }

    /** Division by a non-zero scalar: multiplying back gives this vector. */
    function Div(scalar: real): (r: Vector2d)
      requires scalar != 0.0
      ensures r.Times(scalar) == this
    {
      Vector2d(x / scalar, y / scalar)
    }

    /** Negation: the additive inverse, equal to scaling by -1. */
    function Negate(): (r: Vector2d)
      ensures r.Plus(this) == Vector2d()
      ensures r == this.Times(-1.0)
    {
      Vector2d(-x, -y)
    }

    /** The dot product. */
    function Dot(other: Vector2d): real {
      x * other.x + y * other.y
    }

    /** The 2-D cross product (the z component of the 3-D one). */
    function Cross(other: Vector2d): real {
      x * other.y - y * other.x
    }

    /**
     * The square of the distance between two vectors (the source's distTo
     * takes the square root of this value).
     */
    function DistSquared(other: Vector2d): (r: real)
      ensures r >= 0.0
      ensures this == other ==> r == 0.0
    {
      var d := this.Minus(other);
      SquareSumNonNegative(d.x, d.y);
      d.Dot(d)
    }

    /**
     * Projection onto a vector of non-zero length: the result lies on the
     * line of `other`, and what is left over is perpendicular to `other`.
     */
    function ProjectOnto(other: Vector2d): (r: Vector2d)
      requires other.Dot(other) != 0.0
      ensures r.Cross(other) == 0.0
      ensures this.Minus(r).Dot(other) == 0.0
    {
      var d := this.Dot(other);
      var n := other.Dot(other);
      var r := other.Times(d).Div(n);
      ProjectionFacts(this, other, d, n, r);
      r
    }

    /**
     * Componentwise approximate equality under a scalar closeness relation:
     * every vector is close to itself when every number is.
     */
    function EpsilonEquals(other: Vector2d, near: (real, real) -> bool): (r: bool)
      ensures other == this && (forall a :: near(a, a)) ==> r
    {
      near(x, other.x) && near(y, other.y)
    }
  }

  /** `scalar * vector`: the same as `vector * scalar`. */
  function ScalarTimes(scalar: real, v: Vector2d): (r: Vector2d)
    ensures scalar != 0.0 ==> ScalarDiv(scalar, r) == v
  {
    v.Times(scalar)
  }

  /** `scalar / vector`: divides the vector by the scalar, not the scalar by each coordinate. */
  function ScalarDiv(scalar: real, v: Vector2d): (r: Vector2d)
    requires scalar != 0.0
    ensures r.Times(scalar) == v
  {
    v.Div(scalar)
  }

  /** A sum of two squares is never negative. */
  lemma SquareSumNonNegative(a: real, b: real)
    ensures a * a + b * b >= 0.0
  {
    SquarePositive(a);
    SquarePositive(b);
  }

  lemma SquarePositive(a: real)
    ensures a * a >= 0.0
  {
    if a < 0.0 {
      assert (-a) * (-a) >= 0.0;
    }
  }

  lemma ProjectionFacts(v: Vector2d, o: Vector2d, d: real, n: real, r: Vector2d)
    requires d == v.Dot(o) && n == o.Dot(o) && n != 0.0
    requires r == Vector2d(d * o.x / n, d * o.y / n)
    ensures r.Cross(o) == 0.0
    ensures v.Minus(r).Dot(o) == 0.0
  {
    var k := d / n;
    assert r == Vector2d(k * o.x, k * o.y);
    assert r.Cross(o) == k * (o.x * o.y - o.y * o.x) == 0.0;
    calc {
      v.Minus(r).Dot(o);
      (v.x - k * o.x) * o.x + (v.y - k * o.y) * o.y;
      d - k * n;
      { assert k * n == d; }
      0.0;
    }
  }

  /** (a + b) - b == a, and a - a is the zero vector. */
  lemma PlusMinusCancel(a: Vector2d, b: Vector2d)
    ensures a.Plus(b).Minus(b) == a
    ensures a.Minus(a) == Vector2d()
  {
  }

  /** (v * s) / s == v for a non-zero scalar. */
  lemma TimesDivCancel(v: Vector2d, s: real)
    requires s != 0.0
    ensures v.Times(s).Div(s) == v
  {
  }

  /** The dot product is symmetric, and a vector dotted with itself is its squared length. */
  lemma DotSymmetric(a: Vector2d, b: Vector2d)
    ensures a.Dot(b) == b.Dot(a)
    ensures a.Dot(a) == a.x * a.x + a.y * a.y
    ensures a.Dot(a) == a.DistSquared(Vector2d())
  {
  }

  /** The cross product is antisymmetric, so a vector crossed with itself is zero. */
  lemma CrossAntisymmetric(a: Vector2d, b: Vector2d)
    ensures a.Cross(b) == -b.Cross(a)
    ensures a.Cross(a) == 0.0
  {
  }

  /** The squared distance does not depend on the order of its arguments. */
  lemma DistSquaredSymmetric(a: Vector2d, b: Vector2d)
    ensures a.DistSquared(b) == b.DistSquared(a)
  {
  }

  /** `s * v == v * s`, and `s / v == v / s` (the vector divided by the scalar). */
  lemma ScalarOperatorsCommute(s: real, v: Vector2d)
    ensures ScalarTimes(s, v) == v.Times(s)
    ensures s != 0.0 ==> ScalarDiv(s, v) == v.Div(s)
  {
  }

  /**
   * A robot pose or pose derivative (x, y, heading). Every coordinate defaults
   * to 0, so `Pose2d()` is the origin. The heading is a plain scalar in this
   * arithmetic; it is not normalised.
   */
  datatype Pose2d = Pose2d(x: real := 0.0, y: real := 0.0, heading: real := 0.0) {

    /** The position part of the pose; with the heading it gives the pose back. */
    function Vec(): (r: Vector2d)
      ensures Pose2d(r.x, r.y, heading) == this
    {
      Vector2d(x, y)
    }

    /** Addition: vector sum of the positions, plain sum of the headings. */
    function Plus(other: Pose2d): (r: Pose2d)
      ensures r.Vec() == this.Vec().Plus(other.Vec())
      ensures r.heading == heading + other.heading
    {
      Pose2d(x + other.x, y + other.y, heading + other.heading)
    }

    /** Subtraction: undoes Plus, and gives the origin only for equal poses. */
    function Minus(other: Pose2d): (r: Pose2d)
      ensures r.Plus(other) == this
      ensures r == Pose2d() <==> this == other
    {
      Pose2d(x - other.x, y - other.y, heading - other.heading)
    }

    /** Scaling: the position scales as a vector, the heading as a scalar. */
    function Times(scalar: real): (r: Pose2d)
      ensures r.Vec() == this.Vec().Times(scalar)
      ensures r.heading == scalar * heading
    {
      Pose2d(scalar * x, scalar * y, scalar * heading)
    }

    /** Division by a non-zero scalar: multiplying back gives this pose. */
    function Div(scalar: real): (r: Pose2d)
      requires scalar != 0.0
      ensures r.Times(scalar) == this
    {
      Pose2d(x / scalar, y / scalar, heading / scalar)
    }

    /** Negation: the additive inverse, equal to scaling by -1. */
    function Negate(): (r: Pose2d)
      ensures r.Plus(this) == Pose2d()
      ensures r == this.Times(-1.0)
    {
      Pose2d(-x, -y, -heading)
    }

    /**
     * Componentwise approximate equality under a scalar closeness relation:
     * close poses have close positions, and every pose is close to itself
     * when every number is.
     */
    function EpsilonEquals(other: Pose2d, near: (real, real) -> bool): (r: bool)
      ensures r ==> this.Vec().EpsilonEquals(other.Vec(), near)
      ensures other == this && (forall a :: near(a, a)) ==> r
    {
      near(x, other.x) && near(y, other.y) && near(heading, other.heading)
    }
  }

  /** The pose with position `v` and the given heading (0 unless given). */
  function PoseOf(v: Vector2d, heading: real := 0.0): (r: Pose2d)
    ensures r.Vec() == v
    ensures r.heading == heading
  {
    Pose2d(v.x, v.y, heading)
  }

  /** `scalar * pose`: the same as `pose * scalar`. */
  function ScalarTimesPose(scalar: real, p: Pose2d): (r: Pose2d)
    ensures scalar != 0.0 ==> ScalarDivPose(scalar, r) == p
  {
    p.Times(scalar)
  }

  /** `scalar / pose`: divides the pose by the scalar. */
  function ScalarDivPose(scalar: real, p: Pose2d): (r: Pose2d)
    requires scalar != 0.0
    ensures r.Times(scalar) == p
  {
    p.Div(scalar)
  }

  /** The default pose is the origin, and a pose built from a vector alone has heading 0. */
  lemma DefaultPoseIsOrigin(v: Vector2d)
    ensures Pose2d() == Pose2d(0.0, 0.0, 0.0)
    ensures PoseOf(v) == Pose2d(v.x, v.y, 0.0)
    ensures Vector2d() == Vector2d(0.0, 0.0)
  {
  }

  /** (a + b) - b == a, and a - a is the origin pose. */
  lemma PosePlusMinusCancel(a: Pose2d, b: Pose2d)
    ensures a.Plus(b).Minus(b) == a
    ensures a.Minus(a) == Pose2d()
  {
  }

  /** (p * s) / s == p for a non-zero scalar, and -p == p * (-1). */
  lemma PoseTimesDivCancel(p: Pose2d, s: real)
    requires s != 0.0
    ensures p.Times(s).Div(s) == p
    ensures p.Negate() == p.Times(-1.0)
  {
  }

  /** `s * p == p * s`, and `s / p == p / s`. */
  lemma PoseScalarOperatorsCommute(s: real, p: Pose2d)
    ensures ScalarTimesPose(s, p) == p.Times(s)
    ensures s != 0.0 ==> ScalarDivPose(s, p) == p.Div(s)
  {
  }

  /**
   * Pose approximate equality holds exactly when every component is close;
   * it inherits reflexivity and symmetry from the scalar relation.
   */
  lemma PoseEpsilonEqualsComponents(a: Pose2d, b: Pose2d, near: (real, real) -> bool)
    ensures a.EpsilonEquals(b, near) <==>
      near(a.x, b.x) && near(a.y, b.y) && near(a.heading, b.heading)
    ensures (forall u :: near(u, u)) ==> a.EpsilonEquals(a, near)
    ensures (forall u, w :: near(u, w) ==> near(w, u)) ==>
      (a.EpsilonEquals(b, near) <==> b.EpsilonEquals(a, near))
  {
  }
}
