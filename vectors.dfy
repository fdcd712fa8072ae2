/** Three-component vectors over the reals, standing in for Unity's Vector3.
    Unity's float arithmetic is replaced by exact real arithmetic. */
module Vectors {

  datatype Vec = Vec(x: real, y: real, z: real)

  /** Vector3.zero */
  const Zero := Vec(0.0, 0.0, 0.0)

  /** a + b */
  function Add(a: Vec, b: Vec): Vec {
    Vec(a.x + b.x, a.y + b.y, a.z + b.z)
  }

  /** a - b */
  function Sub(a: Vec, b: Vec): Vec {
    Vec(a.x - b.x, a.y - b.y, a.z - b.z)
  }

  /** a * k */
  function Scale(a: Vec, k: real): Vec {
    Vec(a.x * k, a.y * k, a.z * k)
  }

  /** a / k, defined for a non-zero divisor */
  function Div(a: Vec, k: real): Vec
    requires k != 0.0
  {
    Vec(a.x / k, a.y / k, a.z / k)
  }

  /** Dividing by k undoes scaling by k. */
  lemma ScaleDiv(a: Vec, k: real)
    requires k != 0.0
    ensures Div(Scale(a, k), k) == a
    ensures Scale(Div(a, k), k) == a
  {
    assert a.x * k / k == a.x && a.y * k / k == a.y && a.z * k / k == a.z;
  }
}
