/** Three-component real vectors, and the mutable `Vector3` object of the
    3-D library whose in-place operations the voxelizer relies on. */
module Vectors {

  datatype Vec3 = Vec3(x: real, y: real, z: real)

  function Add(a: Vec3, b: Vec3): Vec3 { Vec3(a.x + b.x, a.y + b.y, a.z + b.z) }

  function Sub(a: Vec3, b: Vec3): Vec3 { Vec3(a.x - b.x, a.y - b.y, a.z - b.z) }

  function Neg(a: Vec3): Vec3 { Vec3(-a.x, -a.y, -a.z) }

  function Scale(k: real, a: Vec3): Vec3 { Vec3(k * a.x, k * a.y, k * a.z) }

  /** Component-wise product (the library's `multiply`). */
  function Mul(a: Vec3, b: Vec3): Vec3 { Vec3(a.x * b.x, a.y * b.y, a.z * b.z) }

  function Cross(a: Vec3, b: Vec3): Vec3 {
    Vec3(a.y * b.z - a.z * b.y, a.z * b.x - a.x * b.z, a.x * b.y - a.y * b.x)
  }

  function Dot(a: Vec3, b: Vec3): real { a.x * b.x + a.y * b.y + a.z * b.z }

  function Abs(r: real): real { if r < 0.0 then -r else r }

  /** A mutable vector: every operation but `Clone` changes the receiver and returns it. */
  class Vector3 {
    var x: real
    var y: real
    var z: real

    function Value(): Vec3
      reads this
    {
      Vec3(x, y, z)
    }

    constructor (v: Vec3)
      ensures Value() == v
    {
      x, y, z := v.x, v.y, v.z;
    }

    method Clone() returns (c: Vector3)
      ensures fresh(c) && c.Value() == Value()
    {
      c := new Vector3(Value());
    }

    method Multiply(v: Vec3)
      modifies this
      ensures Value() == Mul(old(Value()), v)
    {
      x, y, z := x * v.x, y * v.y, z * v.z;
    }

    method MultiplyScalar(k: real)
      modifies this
      ensures Value() == Scale(k, old(Value()))
    {
      x, y, z := k * x, k * y, k * z;
    }

    method AddVec(v: Vec3)
      modifies this
      ensures Value() == Add(old(Value()), v)
    {
      x, y, z := x + v.x, y + v.y, z + v.z;
    }

    method Negate()
      modifies this
      ensures Value() == Neg(old(Value()))
    {
      x, y, z := -x, -y, -z;
    }
  }
}
