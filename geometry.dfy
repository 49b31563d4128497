/** Unity's value types used by the terrain pipeline (Vector2, Vector3, Color, Rect)
    and the Mathf helpers it calls, with single-precision floats read as reals. */
module Geometry {

  datatype Vec2 = Vec2(x: real, y: real)

  datatype Vec3 = Vec3(x: real, y: real, z: real)

  datatype Color = Color(r: real, g: real, b: real, a: real)

  /** Rect(x, y, width, height) as Unity builds it. */
  datatype Rect = Rect(x: real, y: real, width: real, height: real)

  const Zero2: Vec2 := Vec2(0.0, 0.0)

  const Zero3: Vec3 := Vec3(0.0, 0.0, 0.0)

  function Add2(a: Vec2, b: Vec2): Vec2
  {
    Vec2(a.x + b.x, a.y + b.y)
  }

  function Scale2(k: real, v: Vec2): Vec2
  {
    Vec2(k * v.x, k * v.y)
  }

  function Add3(a: Vec3, b: Vec3): Vec3
  {
    Vec3(a.x + b.x, a.y + b.y, a.z + b.z)
  }

  /** Mathf.Abs */
  function Abs(x: real): (r: real)
    ensures r >= 0.0
    ensures r == x || r == -x
  {
    if x < 0.0 then -x else x
  }

  /** Mathf.Clamp01: the nearest point of [0, 1]. */
  function Clamp01(x: real): (r: real)
    ensures 0.0 <= r <= 1.0
    ensures 0.0 <= x <= 1.0 ==> r == x
    ensures x < 0.0 ==> r == 0.0
    ensures x > 1.0 ==> r == 1.0
  {
    if x < 0.0 then 0.0 else if x > 1.0 then 1.0 else x
  }

  /** Mathf.Lerp, which clamps its parameter to [0, 1] before interpolating. */
  function Lerp(a: real, b: real, t: real): (r: real)
    ensures a <= b ==> a <= r <= b
    ensures t <= 0.0 ==> r == a
    ensures t >= 1.0 ==> r == b
    ensures 0.0 <= t <= 1.0 ==> r == (1.0 - t) * a + t * b
  {
    var c := Clamp01(t);
    assert a <= b ==> 0.0 <= (b - a) * c <= (b - a) by {
      if a <= b {
        MulNonNegative(b - a, c);
        MulNonNegative(b - a, 1.0 - c);
      }
    }
    a + (b - a) * c
  }

  lemma MulNonNegative(x: real, y: real)
    requires x >= 0.0 && y >= 0.0
    ensures x * y >= 0.0
  {
  }
}
