/**
  Exact-real stand-ins for the GLSL vector type and built-ins that the bird
  shaders use. Floating point is not modelled: every float is a `real`.

  The transcendental built-ins (`sqrt`, through it `length`, `normalize` and
  `cos`) are left uninterpreted: they are fields of a `Builtins` value, and
  `Lawful` states the only facts the proofs rely on.
*/
module Glsl {

  datatype Vec3 = Vec3(x: real, y: real, z: real)

  const Zero := Vec3(0.0, 0.0, 0.0)

  function Add(u: Vec3, v: Vec3): Vec3 {
    Vec3(u.x + v.x, u.y + v.y, u.z + v.z)
  }

  function Sub(u: Vec3, v: Vec3): Vec3 {
    Vec3(u.x - v.x, u.y - v.y, u.z - v.z)
  }

  /** `v * k` for a vector and a scalar. */
  function Scale(v: Vec3, k: real): Vec3 {
    Vec3(v.x * k, v.y * k, v.z * k)
  }

  function Dot(u: Vec3, v: Vec3): real {
    u.x * v.x + u.y * v.y + u.z * v.z
  }

  /** The built-ins whose values the model does not compute. */
  datatype Builtins = Builtins(sqrt: real -> real, normalize: Vec3 -> Vec3, cos: real -> real)

  /** GLSL `length` of a vec3. */
  function Length(b: Builtins, v: Vec3): real {
    b.sqrt(Dot(v, v))
  }

  /** GLSL `length` of the vec2 `(x, y)`, as in `length( velocity.xz )`. */
  function Length2(b: Builtins, x: real, y: real): real {
    b.sqrt(x * x + y * y)
  }

  function Square(a: real): real {
    a * a
  }

  /**
    The fewest facts about the built-ins that the proofs need: `sqrt` of the
    square of a non-negative number is that number, and `normalize` turns a
    vector of non-zero length into a unit vector. Nothing is assumed of `cos`,
    nor of `normalize` on the zero vector (undefined in GLSL).
  */
  ghost predicate Lawful(b: Builtins) {
    && (forall a: real :: 0.0 <= a ==> b.sqrt(Square(a)) == a)
    && (forall v: Vec3 :: Length(b, v) != 0.0 ==> Dot(b.normalize(v), b.normalize(v)) == 1.0)
  }

  /** GLSL `max` on floats. */
  function Max(x: real, y: real): (r: real)
    ensures r >= x && r >= y && (r == x || r == y)
  {
    if x < y then y else x
  }

  /** GLSL `mod(x, y)`, defined by the language as `x - y * floor(x / y)`. */
  function Mod(x: real, y: real): real
    requires y != 0.0
  {
    x - y * (x / y).Floor as real
  }

  // Facts of real arithmetic, each proved on its own so that the solver sees
  // no integer terms beside the products.

  lemma MulNonNegative(c: real, a: real)
    requires 0.0 <= c && 0.0 <= a
    ensures 0.0 <= c * a
  {
  }

  lemma MulMonotone(c: real, a: real, d: real)
    requires 0.0 < c && a <= d
    ensures c * a <= c * d
  {
    assert c * d - c * a == c * (d - a);
  }

  lemma MulBelowOne(c: real, a: real)
    requires 0.0 < c && a < 1.0
    ensures c * a < c
  {
    assert c - c * a == c * (1.0 - a);
  }

  lemma ProductPositive(c: real, a: real, p: real)
    requires 0.0 < c && 0.0 < a && p == c * a
    ensures 0.0 < p
  {
  }

  /** The square `s` of a non-zero number is positive. */
  lemma SquarePositive(r: real, s: real)
    requires r != 0.0 && s == r * r
    ensures 0.0 < s
  {
    if r < 0.0 {
      ProductPositive(-r, -r, s);
    } else {
      ProductPositive(r, r, s);
    }
  }

  /** `a / w` lies in `[0, 1]` when `0 <= a <= w`, and below 1 when `a < w`. */
  lemma DivFraction(a: real, w: real)
    requires 0.0 <= a <= w && 0.0 < w
    ensures 0.0 <= a / w <= 1.0
    ensures a < w ==> a / w < 1.0
  {
    var q := a / w;
    assert w * q == a;
    if q < 0.0 {
      MulMonotone(w, q, 0.0);
    }
    if 1.0 <= q {
      MulMonotone(w, 1.0, q);
    }
  }

  lemma DivAboveOne(t: real, p: real)
    requires 0.0 < p < t
    ensures t / p > 1.0
  {
    var q := t / p;
    assert p * q == t;
    if q <= 1.0 {
      MulMonotone(p, q, 1.0);
    }
  }

  lemma DivOfProduct(a: real, y: real, c: real)
    requires y != 0.0 && y * c == a
    ensures a / y == c
  {
  }

  /** The length of `(0, -y, 0)` is the distance of `y` from 0. */
  lemma LengthOnAxis(b: Builtins, y: real)
    requires Lawful(b)
    ensures Length(b, Vec3(0.0, -y, 0.0)) == (if y < 0.0 then -y else y)
  {
    var a := if y < 0.0 then -y else y;
    assert Dot(Vec3(0.0, -y, 0.0), Vec3(0.0, -y, 0.0)) == Square(a);
  }

  /** The zero vector has length 0. */
  lemma LengthOfZero(b: Builtins)
    requires Lawful(b)
    ensures Length(b, Zero) == 0.0
  {
    assert Dot(Zero, Zero) == Square(0.0);
  }

  /** Scaling a unit vector by a non-negative `k` gives a vector of length `k`. */
  lemma LengthOfScaledUnit(b: Builtins, n: Vec3, k: real)
    requires Lawful(b) && Dot(n, n) == 1.0 && 0.0 <= k
    ensures Length(b, Scale(n, k)) == k
  {
    assert Dot(Scale(n, k), Scale(n, k)) == Square(k) * Dot(n, n);
  }

  /** The result of GLSL `mod` lies in `[0, y)` for a positive modulus. */
  lemma ModRange(x: real, y: real)
    requires 0.0 < y
    ensures 0.0 <= Mod(x, y) < y
  {
    var q := x / y;
    var d := q - q.Floor as real;
    assert 0.0 <= d < 1.0;
    MulNonNegative(y, d);
    MulBelowOne(y, d);
    assert y * q == x;
    assert Mod(x, y) == y * d;
    assert y * d < y;
  }

  /** A value already in `[0, y)` is its own GLSL `mod`. */
  lemma ModOfInRange(x: real, y: real)
    requires 0.0 < y
    ensures 0.0 <= x < y ==> Mod(x, y) == x
  {
    if 0.0 <= x < y {
      var q := x / y;
      DivFraction(x, y);
      assert 0.0 <= q < 1.0;
      assert q.Floor == 0;
    }
  }

  /** GLSL `mod` is periodic in its modulus. */
  lemma ModPeriodic(x: real, y: real)
    requires 0.0 < y
    ensures Mod(x + y, y) == Mod(x, y)
  {
    var q := x / y;
    assert y * q == x;
    assert (x + y) / y == q + 1.0 by {
      assert y * (q + 1.0) == x + y;
      DivOfProduct(x + y, y, q + 1.0);
    }
    assert (q + 1.0).Floor == q.Floor + 1;
  }
}
